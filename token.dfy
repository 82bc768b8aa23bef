/** Bearer-token extraction from the `Authorization` header
    (RouterFactory::getToken): the first match of `Bearer\s(\S+)`, unanchored and
    case-sensitive, with "" when nothing matches. */
module Token {
  import opened Php

  /** PCRE's `\s` without Unicode properties: space, \t, \n, \v, \f, \r. */
  predicate IsSpace(c: char) {
    c == ' ' || c == '\t' || c == '\n' || c == '\r' || c as int == 11 || c as int == 12
  }

  /** The pattern matches at offset `i`: `Bearer`, one `\s`, then at least one `\S`. */
  predicate MatchAt(s: string, i: int) {
    0 <= i && i + 8 <= |s| && s[i..i + 6] == "Bearer" && IsSpace(s[i + 6]) && !IsSpace(s[i + 7])
  }

  /** `Bearer` and one `\s` stand at offset `i`. */
  predicate SpacedBearerAt(s: string, i: int) {
    0 <= i && i + 7 <= |s| && s[i..i + 6] == "Bearer" && IsSpace(s[i + 6])
  }

  /** The greedy `\S+` run at the start of `s`. */
  function NonSpaceRun(s: string): (r: string)
    ensures |r| <= |s| && r == s[..|r|]
    ensures forall k :: 0 <= k < |r| ==> !IsSpace(r[k])
    ensures |r| == |s| || IsSpace(s[|r|])
  {
    if s == [] || IsSpace(s[0]) then [] else [s[0]] + NonSpaceRun(s[1..])
  }

  /** Leftmost offset at or after `from` where the pattern matches. */
  function FindBearer(s: string, from: nat): (r: Option<nat>)
    ensures r.Some? ==> from <= r.value < |s| && MatchAt(s, r.value)
    ensures r.Some? ==> forall j :: from <= j < r.value ==> !MatchAt(s, j)
    ensures r.None? ==> forall j :: from <= j < |s| ==> !MatchAt(s, j)
    decreases |s| - from
  {
    if from >= |s| then None
    else if MatchAt(s, from) then Some(from)
    else FindBearer(s, from + 1)
  }

  /** `getToken()`: the captured group of the first match, or "". */
  function GetToken(auth: string): string {
    match FindBearer(auth, 0)
    case None => ""
    case Some(i) => NonSpaceRun(auth[i + 7..])
  }

  /** The token is empty exactly when nothing matches; otherwise it is the
      non-space run after the leftmost match. */
  lemma GetTokenFirstMatch(auth: string)
    ensures GetToken(auth) == "" <==> forall i :: 0 <= i < |auth| ==> !MatchAt(auth, i)
    ensures GetToken(auth) != "" ==> exists i :: (0 <= i < |auth| && MatchAt(auth, i) &&
      (forall j :: 0 <= j < i ==> !MatchAt(auth, j)) && GetToken(auth) == NonSpaceRun(auth[i + 7..]))
  {
    match FindBearer(auth, 0)
    case None =>
    case Some(i) =>
      assert auth[i + 7..][0] == auth[i + 7];
      assert NonSpaceRun(auth[i + 7..]) != [];
      assert forall j :: 0 <= j < i ==> !MatchAt(auth, j);
  }

  /** A header built as `<p>Bearer <t><rest>` gives back `t`, wherever the
      `Bearer` stands, provided nothing before it can start a match and `t` ends
      at a space or at the end. */
  lemma BearerRoundTrip(p: string, t: string, rest: string)
    requires 'B' !in p
    requires t != [] && forall k :: 0 <= k < |t| ==> !IsSpace(t[k])
    requires rest == [] || IsSpace(rest[0])
    ensures GetToken(p + "Bearer " + t + rest) == t
  {
    var s := p + "Bearer " + t + rest;
    var i := |p|;
    assert s[i..i + 6] == "Bearer";
    assert s[i + 6] == ' ' && s[i + 7] == t[0];
    assert MatchAt(s, i);
    forall j | 0 <= j < i ensures !MatchAt(s, j) {
      assert s[j] == p[j];
    }
    assert FindBearer(s, 0) == Some(i) by {
      var f := FindBearer(s, 0);
      if f.None? || f.value != i {
        assert false;
      }
    }
    assert s[i + 7..] == t + rest;
    RunOfWord(t, rest);
  }

  lemma {:induction false} RunOfWord(t: string, rest: string)
    requires forall k :: 0 <= k < |t| ==> !IsSpace(t[k])
    requires rest == [] || IsSpace(rest[0])
    ensures NonSpaceRun(t + rest) == t
  {
    if t == [] {
      assert t + rest == rest;
    } else {
      assert (t + rest)[1..] == t[1..] + rest;
      RunOfWord(t[1..], rest);
    }
  }

  /** The match is case-sensitive: a header without a capital `B`, such as
      `bearer abc`, yields no token. */
  lemma NoCapitalNoToken(auth: string)
    requires 'B' !in auth
    ensures GetToken(auth) == ""
  {
    forall i | 0 <= i < |auth| ensures !MatchAt(auth, i) {
      if i + 8 <= |auth| {
        assert auth[i..i + 6][0] == auth[i];
      }
    }
  }

  /** `\s` takes exactly one character: a header in which every `Bearer`
      followed by whitespace is followed by a second whitespace character, such
      as `Bearer  abc`, yields no token. */
  lemma DoubleSpaceNoToken(auth: string)
    requires forall i :: SpacedBearerAt(auth, i) && i + 8 <= |auth| ==> IsSpace(auth[i + 7])
    ensures GetToken(auth) == ""
  {
    forall i | 0 <= i < |auth| ensures !MatchAt(auth, i) {
      if MatchAt(auth, i) {
        assert SpacedBearerAt(auth, i);
      }
    }
    GetTokenFirstMatch(auth);
  }
}

/** Placeholder constraints of the route table (RouterFactory's `uuidMatch`
    and the `web3id` pattern).  The router library anchors a placeholder's pattern
    to the whole path segment, so each constraint is a predicate on the segment. */
module Patterns {

  predicate IsLowerHex(c: char) {
    '0' <= c <= '9' || 'a' <= c <= 'f'
  }

  /** `[0-9a-f]{n}`. */
  predicate HexRun(s: string, n: nat) {
    |s| == n && forall k :: 0 <= k < |s| ==> IsLowerHex(s[k])
  }

  /** `[0-9a-f]{8}-(?:[0-9a-f]{4}-){3}[0-9a-f]{12}`, read as the regex reads. */
  predicate IsUuid(s: string) {
    |s| == 36 &&
    HexRun(s[0..8], 8) && s[8] == '-' &&
    HexRun(s[9..13], 4) && s[13] == '-' &&
    HexRun(s[14..18], 4) && s[18] == '-' &&
    HexRun(s[19..23], 4) && s[23] == '-' &&
    HexRun(s[24..36], 12)
  }

  /** Assembling five groups with hyphens. */
  function FormatUuid(a: string, b: string, c: string, d: string, e: string): string {
    a + "-" + b + "-" + c + "-" + d + "-" + e
  }

  /** The pattern accepts exactly the hyphenated five-group form: every
      accepted segment is such a form, and every such form of lower-case hex
      groups of sizes 8-4-4-4-12 is accepted. */
  lemma UuidIsFormatted(s: string)
    requires IsUuid(s)
    ensures s == FormatUuid(s[0..8], s[9..13], s[14..18], s[19..23], s[24..36])
  {
    var f := FormatUuid(s[0..8], s[9..13], s[14..18], s[19..23], s[24..36]);
    assert |f| == 36;
    forall k | 0 <= k < 36 ensures f[k] == s[k] {
    }
  }

  lemma FormattedIsUuid(a: string, b: string, c: string, d: string, e: string)
    requires HexRun(a, 8) && HexRun(b, 4) && HexRun(c, 4) && HexRun(d, 4) && HexRun(e, 12)
    ensures IsUuid(FormatUuid(a, b, c, d, e))
  {
    var s := FormatUuid(a, b, c, d, e);
    assert s[0..8] == a;
    assert s[9..13] == b;
    assert s[14..18] == c;
    assert s[19..23] == d;
    assert s[24..36] == e;
  }

  /** Upper-case hex digits are refused: the pattern is lower-case only. */
  lemma UuidHasNoCapitals(s: string, k: nat)
    requires IsUuid(s) && k < |s|
    ensures !('A' <= s[k] <= 'Z')
  {
    if k < 8 {
      assert s[k] == s[0..8][k];
    } else if 8 < k < 13 {
      assert s[k] == s[9..13][k - 9];
    } else if 13 < k < 18 {
      assert s[k] == s[14..18][k - 14];
    } else if 18 < k < 23 {
      assert s[k] == s[19..23][k - 19];
    } else if 23 < k {
      assert s[k] == s[24..36][k - 24];
    }
  }

  /** The literal segments that share a prefix with a UUID placeholder
      (`/visitor/v1/init` and `/visitor/v1/{uuid}`, `/level2/list` and
      `/level2/{uuid}`) are never taken for a UUID. */
  lemma LiteralSegmentsAreNotUuids(s: string)
    requires s in {"init", "start", "end", "list", "revoke"}
    ensures !IsUuid(s)
  {
  }

  /** `[\@\w-]+` with ASCII word characters. */
  predicate IsWeb3Id(s: string) {
    |s| > 0 && forall k :: 0 <= k < |s| ==>
      s[k] == '@' || s[k] == '_' || s[k] == '-' ||
      '0' <= s[k] <= '9' || 'a' <= s[k] <= 'z' || 'A' <= s[k] <= 'Z'
  }
}

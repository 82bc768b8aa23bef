/** Flag/value pairs of a command vector.

    Every `--flag value` the router emits is appended as two positional entries,
    the flag and then its value.  The builders produce lists of `Arg` and
    `Flatten` lays them out, so "every flag is followed by exactly one value"
    holds by construction. */
module Command {
  import opened Php

  /** One `--flag value` pair; `flag` is the name without the leading dashes. */
  datatype Arg = Arg(flag: string, value: Value)

  function FlagToken(name: string): string {
    "--" + name
  }

  /** The two positional entries of each pair, in order. */
  function Flatten(args: seq<Arg>): (r: seq<Item>)
    ensures |r| == 2 * |args|
    ensures forall i :: 0 <= i < |args| ==>
      r[2 * i] == Pos(Str(FlagToken(args[i].flag))) && r[2 * i + 1] == Pos(args[i].value)
  {
    if args == [] then []
    else [Pos(Str(FlagToken(args[0].flag))), Pos(args[0].value)] + Flatten(args[1..])
  }

  /** Nothing keyed is ever emitted by a run of pairs. */
  lemma {:induction false} FlattenAllPos(args: seq<Arg>)
    ensures forall i :: 0 <= i < |Flatten(args)| ==> Flatten(args)[i].Pos?
  {
    if args != [] {
      FlattenAllPos(args[1..]);
    }
  }

  /** The values emitted under one flag, in order. */
  function ValuesUnder(args: seq<Arg>, flag: string): seq<Value> {
    if args == [] then []
    else (if args[0].flag == flag then [args[0].value] else []) + ValuesUnder(args[1..], flag)
  }

  /** The argument list the engine reads from a run of pairs. */
  function ArgValues(args: seq<Arg>): seq<Value> {
    if args == [] then []
    else [Str(FlagToken(args[0].flag)), args[0].value] + ArgValues(args[1..])
  }

  lemma {:induction false} FlattenAppend(a: seq<Arg>, b: seq<Arg>)
    ensures Flatten(a + b) == Flatten(a) + Flatten(b)
  {
    if a == [] {
      assert a + b == b;
    } else {
      assert (a + b)[0] == a[0];
      assert (a + b)[1..] == a[1..] + b;
      FlattenAppend(a[1..], b);
    }
  }

  /** Appending one pair appends its flag and its value. */
  lemma FlattenSnoc(args: seq<Arg>, a: Arg)
    ensures Flatten(args + [a]) == Flatten(args) + [Pos(Str(FlagToken(a.flag))), Pos(a.value)]
  {
    FlattenAppend(args, [a]);
    assert [a][1..] == [];
  }

  /** Seen positionally, a run of pairs is exactly its flags and values. */
  lemma {:induction false} FlattenPositional(args: seq<Arg>)
    ensures Positional(Flatten(args)) == ArgValues(args)
  {
    if args != [] {
      var head := [Pos(Str(FlagToken(args[0].flag))), Pos(args[0].value)];
      FlattenPositional(args[1..]);
      PositionalAppend(head, Flatten(args[1..]));
      assert Positional(head) == [Str(FlagToken(args[0].flag)), args[0].value] by {
        assert head[1..][1..] == [];
      }
    }
  }

  lemma {:induction false} ValuesUnderAppend(a: seq<Arg>, b: seq<Arg>, flag: string)
    ensures ValuesUnder(a + b, flag) == ValuesUnder(a, flag) + ValuesUnder(b, flag)
  {
    if a == [] {
      assert a + b == b;
    } else {
      assert (a + b)[0] == a[0];
      assert (a + b)[1..] == a[1..] + b;
      ValuesUnderAppend(a[1..], b, flag);
      var head := if a[0].flag == flag then [a[0].value] else [];
      calc {
        ValuesUnder(a + b, flag);
        head + ValuesUnder(a[1..] + b, flag);
        head + (ValuesUnder(a[1..], flag) + ValuesUnder(b, flag));
        (head + ValuesUnder(a[1..], flag)) + ValuesUnder(b, flag);
      }
    }
  }

  /** A flag that no pair carries has no values. */
  lemma {:induction false} ValuesUnderAbsent(args: seq<Arg>, flag: string)
    requires forall i :: 0 <= i < |args| ==> args[i].flag != flag
    ensures ValuesUnder(args, flag) == []
  {
    if args != [] {
      assert args[0].flag != flag;
      ValuesUnderAbsent(args[1..], flag);
    }
  }

  /** A run whose pairs all carry `flag` yields all its values under it. */
  lemma {:induction false} ValuesUnderUniform(args: seq<Arg>, flag: string)
    requires forall i :: 0 <= i < |args| ==> args[i].flag == flag
    ensures |ValuesUnder(args, flag)| == |args|
    ensures forall i :: 0 <= i < |args| ==> ValuesUnder(args, flag)[i] == args[i].value
  {
    if args != [] {
      assert args[0].flag == flag;
      ValuesUnderUniform(args[1..], flag);
    }
  }
}

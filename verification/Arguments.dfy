/** statctl's argument splitter: flags, with the values they consume, apart from positional tokens. */
module Arguments {
  datatype Split = Split(flags: seq<string>, positional: seq<string>)

  // "-" alone stands for standard input and is not a flag.
  predicate IsFlag(a: string) {
    |a| > 0 && a[0] == '-' && a != "-"
  }

  // The flag carries its value itself.
  predicate HasValue(a: string) {
    '=' in a
  }

  // The flag at the head of args takes the following token as its value.
  predicate TakesNext(args: seq<string>)
    requires args != []
  {
    IsFlag(args[0]) && !HasValue(args[0]) && |args| > 1 && !IsFlag(args[1])
  }

  function SplitArgs(args: seq<string>): Split {
    if args == [] then Split([], [])
    else if !IsFlag(args[0]) then
      var rest := SplitArgs(args[1..]);
      Split(rest.flags, [args[0]] + rest.positional)
    else if TakesNext(args) then
      var rest := SplitArgs(args[2..]);
      Split(args[..2] + rest.flags, rest.positional)
    else
      var rest := SplitArgs(args[1..]);
      Split([args[0]] + rest.flags, rest.positional)
  }

  // ---------------------------------------------------------------- nothing lost, nothing moved

  // Where each token of args goes: true for the flags.
  function Marks(args: seq<string>): (marks: seq<bool>)
    ensures |marks| == |args|
  {
    if args == [] then []
    else if TakesNext(args) then [true, true] + Marks(args[2..])
    else [IsFlag(args[0])] + Marks(args[1..])
  }

  // The tokens marked with `mark`, in their order.
  function Select(args: seq<string>, marks: seq<bool>, mark: bool): seq<string>
    requires |marks| == |args|
  {
    if args == [] then []
    else (if marks[0] == mark then [args[0]] else []) + Select(args[1..], marks[1..], mark)
  }

  /** The two lists interleave, in order, to the argument list: each token is used exactly once. */
  lemma {:induction false} SplitInterleaves(args: seq<string>)
    ensures SplitArgs(args).flags == Select(args, Marks(args), true)
    ensures SplitArgs(args).positional == Select(args, Marks(args), false)
  {
    if args == [] {
    } else {
      if TakesNext(args) {
        SplitInterleaves(args[2..]);
        assert args[1..][1..] == args[2..];
        assert Marks(args)[1..][1..] == Marks(args[2..]);
        assert Select(args[1..], Marks(args)[1..], true) == [args[1]] + Select(args[2..], Marks(args[2..]), true);
        assert Select(args[1..], Marks(args)[1..], false) == Select(args[2..], Marks(args[2..]), false);
        assert args[..2] == [args[0]] + [args[1]];
      } else {
        SplitInterleaves(args[1..]);
        assert Marks(args)[1..] == Marks(args[1..]);
      }
    }
  }

  // Character by character: a token goes to the flags exactly when it starts with '-' and is more than "-", or follows
  // a token that does and that contains no '='.
  ghost predicate Placed(args: seq<string>, marks: seq<bool>) {
    |marks| == |args|
    && forall i :: 0 <= i < |args| ==>
         (marks[i]
          <==> (args[i] != "" && args[i][0] == '-' && args[i] != "-")
               || (i > 0 && args[i - 1] != "" && args[i - 1][0] == '-' && args[i - 1] != "-" && '=' !in args[i - 1]))
  }

  /** Every token is where its own characters and those of its predecessor put it. */
  lemma {:induction false} PlaceOfEachToken(args: seq<string>)
    ensures Placed(args, Marks(args))
  {
    if args == [] {
    } else if TakesNext(args) {
      PlaceOfEachToken(args[2..]);
    } else {
      PlaceOfEachToken(args[1..]);
    }
  }

  lemma {:induction false} SelectPartitions(args: seq<string>, marks: seq<bool>)
    requires |marks| == |args|
    ensures multiset(args) == multiset(Select(args, marks, true)) + multiset(Select(args, marks, false))
  {
    if args == [] {
    } else {
      SelectPartitions(args[1..], marks[1..]);
      assert args == [args[0]] + args[1..];
    }
  }

  lemma SplitConserves(args: seq<string>)
    ensures multiset(args) == multiset(SplitArgs(args).flags) + multiset(SplitArgs(args).positional)
  {
    SplitInterleaves(args);
    SelectPartitions(args, Marks(args));
  }

  // ---------------------------------------------------------------- the loop

  method SplitArgsLoop(args: seq<string>) returns (flags: seq<string>, positional: seq<string>)
    ensures Split(flags, positional) == SplitArgs(args)
    ensures exists marks :: Placed(args, marks) && flags == Select(args, marks, true) && positional == Select(args, marks, false)
  {
    SplitInterleaves(args);
    PlaceOfEachToken(args);
    flags, positional := [], [];
    var i := 0;
    while i < |args|
      invariant 0 <= i <= |args|
      invariant SplitArgs(args) ==
        Split(flags + SplitArgs(args[i..]).flags, positional + SplitArgs(args[i..]).positional)
    {
      var a := args[i];
      assert args[i..][1..] == args[i + 1..];
      if IsFlag(a) {
        flags := flags + [a];
        i := i + 1;
        if HasValue(a) {
          continue;
        }
        if i < |args| && (|args[i]| == 0 || args[i][0] != '-' || args[i] == "-") {
          assert args[i - 1..][..2] == [a, args[i]];
          assert args[i - 1..][2..] == args[i + 1..];
          flags := flags + [args[i]];
          i := i + 1;
        }
        continue;
      }
      positional := positional + [a];
      i := i + 1;
    }
  }

  // ---------------------------------------------------------------- normal form

  lemma {:induction false} PositionalsAreTokens(args: seq<string>)
    ensures forall i :: 0 <= i < |SplitArgs(args).positional| ==> !IsFlag(SplitArgs(args).positional[i])
  {
    if args == [] {
    } else {
      PositionalsAreTokens(if TakesNext(args) then args[2..] else args[1..]);
    }
  }

  lemma {:induction false} FlagsStartWithFlag(args: seq<string>)
    ensures SplitArgs(args).flags != [] ==> IsFlag(SplitArgs(args).flags[0])
  {
    if args != [] && !IsFlag(args[0]) {
      FlagsStartWithFlag(args[1..]);
    }
  }

  lemma {:induction false} FlagsAreNormal(args: seq<string>)
    ensures SplitArgs(SplitArgs(args).flags) == Split(SplitArgs(args).flags, [])
  {
    if args == [] {
    } else {
      var flags := SplitArgs(args).flags;
      if TakesNext(args) {
        var rest := SplitArgs(args[2..]).flags;
        FlagsAreNormal(args[2..]);
        assert flags[2..] == rest && flags[..2] == args[..2];
      } else {
        var rest := SplitArgs(args[1..]).flags;
        FlagsAreNormal(args[1..]);
        FlagsStartWithFlag(args[1..]);
        if IsFlag(args[0]) {
          assert flags == [args[0]] + rest;
          assert flags[1..] == rest;
          assert !TakesNext(flags);
        }
      }
    }
  }

  lemma {:induction false} PositionalsPass(positional: seq<string>, args: seq<string>)
    requires forall i :: 0 <= i < |positional| ==> !IsFlag(positional[i])
    ensures SplitArgs(positional + args) == Split(SplitArgs(args).flags, positional + SplitArgs(args).positional)
  {
    if positional == [] {
      assert positional + args == args;
      assert positional + SplitArgs(args).positional == SplitArgs(args).positional;
    } else {
      PositionalsPass(positional[1..], args);
      assert (positional + args)[1..] == positional[1..] + args;
      assert positional + SplitArgs(args).positional
          == [positional[0]] + (positional[1..] + SplitArgs(args).positional);
    }
  }

  /** Positionals first and flags after is a normal form: splitting it again returns the same pair. */
  lemma SplitNormalForm(args: seq<string>)
    ensures var s := SplitArgs(args); SplitArgs(s.positional + s.flags) == s
  {
    var s := SplitArgs(args);
    PositionalsAreTokens(args);
    PositionalsPass(s.positional, s.flags);
    FlagsAreNormal(args);
    assert s.positional + [] == s.positional;
  }
}

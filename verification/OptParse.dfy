/**
 The option parser (packages/optparse-latest/optparse.c): options are read from anywhere in the argument
 vector, and non-options are moved behind them. Strings are without their terminating NUL, and the
 argument vector without its terminating NULL.
 */
module OptParse {
  import opened Wrappers

  const NUL: char := '\0'

  predicate IsDashDash(arg: string) { arg == "--" }

  predicate IsShortOpt(arg: string) { |arg| >= 2 && arg[0] == '-' && arg[1] != '-' }

  /** -1 if the letter is unknown, or 0, 1, 2 if it takes no, a required or an optional argument. */
  function ArgType(optstring: string, c: char): int
    decreases optstring
  {
    if c == ':' || optstring == "" then -1
    else if optstring[0] == c then
      if |optstring| > 1 && optstring[1] == ':' then (if |optstring| > 2 && optstring[2] == ':' then 2 else 1) else 0
    else ArgType(optstring[1..], c)
  }

  /** The first `c` of the option string is at place `i`. */
  predicate FirstAt(optstring: string, c: char, i: nat) {
    i < |optstring| && optstring[i] == c && c !in optstring[..i]
  }

  /** How many colons follow at place `i`, up to two. */
  predicate Colons(optstring: string, i: nat, n: int) {
    i <= |optstring| && if "::" <= optstring[i..] then n == 2 else if ":" <= optstring[i..] then n == 1 else n == 0
  }

  lemma {:induction false} ArgTypeIs(optstring: string, c: char)
    ensures ArgType(optstring, c) == -1 <==> c == ':' || c !in optstring
    ensures forall i: nat :: c != ':' && FirstAt(optstring, c, i) ==> Colons(optstring, i + 1, ArgType(optstring, c))
  {
    if c != ':' && optstring != "" && optstring[0] != c {
      var rest := optstring[1..];
      ArgTypeIs(rest, c);
      assert optstring == [optstring[0]] + rest;
      forall i: nat | FirstAt(optstring, c, i) ensures Colons(optstring, i + 1, ArgType(optstring, c)) {
        assert rest[..i - 1] == optstring[1..i] && optstring[..i] == [optstring[0]] + optstring[1..i];
        assert FirstAt(rest, c, i - 1);
        assert rest[i..] == optstring[i + 1..];
      }
    } else if c != ':' && optstring != "" {
      forall i: nat | 0 < i < |optstring| ensures !FirstAt(optstring, c, i) { assert optstring[..i][0] == c; }
      var rest := optstring[1..];
      assert ":" <= rest <==> |rest| > 0 && rest[0] == ':';
      assert "::" <= rest <==> |rest| > 1 && rest[0] == ':' && rest[1] == ':';
    }
  }

  /** optparse_argtype: -1 for a letter that is not in the option string, and for the colon; otherwise the number of colons
      behind the letter, up to two. */
  method FindArgType(optstring: string, c: char) returns (count: int)
    ensures count == ArgType(optstring, c)
    ensures count == -1 <==> c == ':' || c !in optstring
    ensures forall i: nat :: c != ':' && FirstAt(optstring, c, i) ==> Colons(optstring, i + 1, count)
  {
    ArgTypeIs(optstring, c);
    count := 0;
    if c == ':' {
      return -1;
    }
    var p := 0;
    while p < |optstring| && c != optstring[p]
      invariant p <= |optstring| && ArgType(optstring[p..], c) == ArgType(optstring, c)
    {
      assert optstring[p..][1..] == optstring[p + 1..];
      p := p + 1;
    }
    if p == |optstring| {
      return -1;
    }
    if p + 1 < |optstring| && optstring[p + 1] == ':' {
      count := count + if p + 2 < |optstring| && optstring[p + 2] == ':' then 2 else 1;
    }
  }

  /** What a call returns: -1, an option letter, or '?' for an unknown letter or a missing argument. */
  datatype Event = End | Letter(letter: char, arg: Option<string>) | Unknown(letter: char) | Missing(letter: char)

  /** A call's result, the arguments from the old optind on, how far optind went, and the new subopt. */
  datatype Call = Call(event: Event, args: seq<string>, moved: nat, subopt: nat)

  /** The letter after the `k` letters of an option that were read, or NUL behind the last. */
  function LetterAt(arg: string, k: nat): char
    requires k + 1 <= |arg|
  {
    if k + 1 < |arg| then arg[k + 1] else NUL
  }

  /** A call that meets an option argument first. */
  function Read(args: seq<string>, k: nat, optstring: string): Call
    requires args != [] && k + 1 <= |args[0]|
  {
    var a, c := args[0], LetterAt(args[0], k);
    var more := k + 2 < |a|;
    match ArgType(optstring, c)
    case 0 => if more then Call(Letter(c, None), args, 0, k + 1) else Call(Letter(c, None), args, 1, 0)
    case 1 =>
      if more then Call(Letter(c, Some(a[k + 2..])), args, 1, 0)
      else if |args| > 1 then Call(Letter(c, Some(args[1])), args, 2, 0)
      else Call(Missing(c), args, 1, 0)
    case 2 => Call(Letter(c, if more then Some(a[k + 2..]) else None), args, 1, 0)
    case _ => Call(Unknown(c), args, 1, k)
  }

  /** The option a call reads next can be read from letter `k` on. */
  predicate Readable(args: seq<string>, k: nat) {
    args == [] || IsDashDash(args[0]) ||
    if IsShortOpt(args[0]) then k + 1 <= |args[0]| else Readable(args[1..], k)
  }

  /** optparse on the arguments from optind on. */
  function Next(args: seq<string>, k: nat, optstring: string, permute: bool): (c: Call)
    requires Readable(args, k)
    ensures |c.args| == |args| && c.moved <= |args|
    decreases args
  {
    if args == [] then Call(End, args, 0, k)
    else if IsDashDash(args[0]) then Call(End, args, 1, k)
    else if IsShortOpt(args[0]) then Read(args, k, optstring)
    else if !permute then Call(End, args, 0, k)
    else
      var r := Next(args[1..], k, optstring, permute);
      r.(args := r.args[..r.moved] + [args[0]] + r.args[r.moved..])
  }

  /** What a call returns for the letter it reads: a letter that is not in the option string stops it. One without a colon
      takes no argument. One with a colon takes the rest of the option argument or, if there is none, the next argument, and
      is an error if there is none either. One with two colons takes the rest only. */
  lemma ReadDoes(args: seq<string>, k: nat, optstring: string, permute: bool)
    requires args != [] && IsShortOpt(args[0]) && k + 1 < |args[0]|
    ensures var r, c, rest := Next(args, k, optstring, permute), args[0][k + 1], args[0][k + 2..];
            && r.args == args
            && (c == ':' || c !in optstring ==> r == Call(Unknown(c), args, 1, k))
            && forall i: nat :: c != ':' && FirstAt(optstring, c, i) ==>
                 if "::" <= optstring[i + 1..] then
                   r == Call(Letter(c, if rest != "" then Some(rest) else None), args, 1, 0)
                 else if ":" <= optstring[i + 1..] then
                   r == if rest != "" then Call(Letter(c, Some(rest)), args, 1, 0)
                        else if |args| > 1 then Call(Letter(c, Some(args[1])), args, 2, 0)
                        else Call(Missing(c), args, 1, 0)
                 else
                   r == if rest != "" then Call(Letter(c, None), args, 0, k + 1) else Call(Letter(c, None), args, 1, 0)
  {
    hide ArgType;
    ArgTypeIs(optstring, args[0][k + 1]);
    assert args[0][k + 2..] != "" <==> k + 2 < |args[0]|;
  }

  /** An option argument is a dash and a letter that is no dash. Two dashes alone end the options and are used up. Any other
      argument ends them too, unless non-options are permuted. */
  lemma NextEnds(args: seq<string>, k: nat, optstring: string, permute: bool)
    requires Readable(args, k)
    ensures forall a: string :: IsShortOpt(a) <==> "-" <= a && a != "-" && !("--" <= a)
    ensures args == [] ==> Next(args, k, optstring, permute) == Call(End, [], 0, k)
    ensures args != [] && args[0] == "--" ==> Next(args, k, optstring, permute) == Call(End, args, 1, k)
    ensures args != [] && args[0] != "--" && !IsShortOpt(args[0]) && !permute ==> Next(args, k, optstring, permute) == Call(End, args, 0, k)
  {
    forall a: string ensures IsShortOpt(a) <==> "-" <= a && a != "-" && !("--" <= a) { DashFacts(a); }
  }

  lemma DashFacts(a: string)
    ensures "-" <= a <==> |a| >= 1 && a[0] == '-'
    ensures "--" <= a <==> |a| >= 2 && a[0] == '-' && a[1] == '-'
    ensures a == "-" <==> |a| == 1 && a[0] == '-'
  {
  }

  // ----- the parser -----

  /** struct optparse. */
  class Parser {
    const argv: array<string>
    var permute: bool
    var optind: nat
    var optopt: char
    var optarg: Option<string>
    var subopt: nat

    /** optparse_init; the first argument is the name of the program. */
    constructor (argv: array<string>)
      requires argv.Length > 0
      ensures this.argv == argv && permute && optind == 1 && subopt == 0 && optarg == None
    {
      this.argv := argv;
      permute := true;
      optind := 1;
      optopt := NUL;
      optarg := None;
      subopt := 0;
    }

    /** optparse_permute: the argument at `index` goes behind those up to optind. */
    method Permute(index: nat)
      requires index < optind <= argv.Length
      modifies argv
      ensures argv[..] == Rotated(old(argv[..]), index, optind)
    {
      hide Rotated, Shifted;
      var nonoption := argv[index];
      ghost var was := argv[..];
      var i := index;
      ShiftLast(was, index, optind);
      while i < optind - 1
        invariant index <= i <= optind - 1
        invariant argv[..] == Shifted(was, index, i)
      {
        ShiftOne(was, index, i);
        ghost var now := argv[..];
        argv[i] := argv[i + 1];
        assert argv[..] == now[i := now[i + 1]];
        i := i + 1;
      }
      ghost var now := argv[..];
      argv[optind - 1] := nonoption;
      assert argv[..] == now[optind - 1 := nonoption];
    }

    /** optparse. */
    method Parse(optstring: string) returns (event: Event)
      requires optind <= argv.Length && Readable(argv[optind..], subopt) && NUL !in optstring
      modifies this, argv
      ensures permute == old(permute)
      ensures var c := Next(old(argv[optind..]), old(subopt), optstring, permute);
              && event == c.event && optind == old(optind) + c.moved && subopt == c.subopt
              && argv[..] == old(argv[..optind]) + c.args
              && optarg == ArgOf(event)
      decreases argv.Length - optind, 1
    {
      hide Read;
      ghost var args, k, from, front := argv[optind..], subopt, optind, argv[..optind];
      assert argv[..] == front + args;
      optopt := NUL;
      optarg := None;
      if optind == argv.Length {
        return End;
      }
      var option := argv[optind];
      assert option == args[0];
      if IsDashDash(option) {
        optind := optind + 1;
        return End;
      } else if !IsShortOpt(option) {
        if permute {
          event := Skip(optstring);
          return;
        } else {
          return End;
        }
      }
      event := ReadOption(optstring, option);
    }

    /** One of the calls until -1, which started at `from` and are to give `all`. */
    method ParseNext(optstring: string, ghost from: nat, ghost all: Parsed, ghost events: seq<Event>) returns (event: Event)
      requires permute && from <= optind <= argv.Length && NUL !in optstring
      requires SoFar(all, events, argv[from..optind], CallAll(argv[optind..], subopt, optstring))
      modifies this, argv
      ensures permute && old(optind) <= optind <= argv.Length && argv[..from] == old(argv[..from])
      ensures if event == End then Found(all, events, argv[from..optind], argv[optind..])
              else
                && SoFar(all, events + [event], argv[from..optind], CallAll(argv[optind..], subopt, optstring))
                && (optind == old(optind) ==> LettersLeft(argv[optind..], subopt) < LettersLeft(old(argv[optind..]), old(subopt)))
    {
      hide Next, CallAll, LettersLeft, Readable, After, Found;
      ghost var at, front, now, k, done := optind, argv[..optind], argv[optind..], subopt, argv[from..optind];
      assert front[..from] == argv[..from] && front[from..] == done;
      CallAllStep(now, k, optstring);
      event := Parse(optstring);
      ghost var c := Next(now, k, optstring, true);
      assert argv[..] == front + c.args;
      SliceParts(argv[..], front, c.args, from, c.moved);
      assert argv[..from] == argv[..][..from] && argv[from..optind] == argv[..][from..optind] && argv[optind..] == argv[..][optind..];
      SoFarNext(all, events, done, event, k, c.args[..c.moved], CallAll(now, k, optstring), CallAll(argv[optind..], subopt, optstring), argv[optind..]);
    }

    /** Calling optparse until it returns -1, for arguments that are not read behind the end of a string. */
    method ParseAll(optstring: string) returns (events: seq<Event>)
      requires permute && optind <= argv.Length && NUL !in optstring && CallAll(argv[optind..], subopt, optstring).ended
      modifies this, argv
      ensures var m := CallAll(old(argv[optind..]), old(subopt), optstring);
              && events == m.events && argv[..] == old(argv[..optind]) + m.used + m.left
              && optind == old(optind) + |m.used|
              && (old(subopt) == 0 && StopsLast(old(argv[optind..]), optstring) ==> m == Meaning(old(argv[optind..]), optstring))
    {
      hide Next, CallAll, Meaning, StopsLast, LettersLeft, Readable, SoFar;
      ghost var from, front := optind, argv[..optind];
      ghost var all := CallAll(argv[optind..], subopt, optstring);
      PermutesAll(argv[optind..], optstring);
      assert argv[from..optind] == [];
      SoFarStart(all);
      events := [];
      var event := ParseNext(optstring, from, all, events);
      while event != End
        invariant permute && from <= optind <= argv.Length && argv[..from] == front
        invariant if event == End then Found(all, events, argv[from..optind], argv[optind..])
                  else SoFar(all, events + [event], argv[from..optind], CallAll(argv[optind..], subopt, optstring))
        decreases event != End, argv.Length - optind, LettersLeft(argv[optind..], subopt)
      {
        events := events + [event];
        event := ParseNext(optstring, from, all, events);
      }
      Parts(argv[..], from, optind);
      assert argv[..][..from] == argv[..from] && argv[..][from..optind] == argv[from..optind] && argv[..][optind..] == argv[optind..];
    }

    /** optparse where a non-option stands: the next option is read, and the non-option moved behind it. */
    method Skip(optstring: string) returns (event: Event)
      requires permute && optind < argv.Length && Readable(argv[optind + 1..], subopt) && NUL !in optstring
      modifies this, argv
      ensures permute == old(permute)
      ensures var c := Next(old(argv[optind + 1..]), old(subopt), optstring, permute);
              && event == c.event && optind == old(optind) + c.moved && subopt == c.subopt
              && argv[..] == old(argv[..optind]) + (c.args[..c.moved] + [old(argv[optind])] + c.args[c.moved..])
              && optarg == ArgOf(event)
      decreases argv.Length - optind, 0
    {
      hide Rotated, Next, Readable;
      ghost var front, a := argv[..optind], argv[optind];
      var index := optind;
      optind := optind + 1;
      assert argv[..optind] == front + [a];
      ghost var inner := Next(argv[optind..], subopt, optstring, permute);
      event := Parse(optstring);
      RotatedIs(front, a, inner.args, inner.moved);
      Permute(index);
      optind := optind - 1;
    }

    /** The rest of optparse, for an option argument. */
    method ReadOption(optstring: string, option: string) returns (event: Event)
      requires optind < argv.Length && option == argv[optind] && subopt + 1 <= |option| && optarg == None
      modifies this`optind, this`optopt, this`optarg, this`subopt
      ensures var c := Read(argv[old(optind)..], old(subopt), optstring);
              event == c.event && optind == old(optind) + c.moved && subopt == c.subopt && optarg == ArgOf(event) && c.args == argv[old(optind)..]
    {
      var c := LetterAt(option, subopt);
      var more := subopt + 2 < |option|;
      optopt := c;
      var kind := FindArgType(optstring, c);
      match kind {
        case 0 =>
          if more {
            subopt := subopt + 1;
          } else {
            subopt := 0;
            optind := optind + 1;
          }
          event := Letter(c, None);
        case 1 =>
          optind := optind + 1;
          if more {
            optarg := Some(option[subopt + 2..]);
          } else if optind < argv.Length {
            optarg := Some(argv[optind]);
            optind := optind + 1;
          } else {
            subopt := 0;
            return Missing(c);
          }
          subopt := 0;
          event := Letter(c, optarg);
        case 2 =>
          optarg := if more then Some(option[subopt + 2..]) else None;
          subopt := 0;
          optind := optind + 1;
          event := Letter(c, optarg);
        case _ =>
          optind := optind + 1;
          event := Unknown(c);
      }
    }
  }

  function ArgOf(event: Event): Option<string> { if event.Letter? then event.arg else None }

  /** The arguments from `index` to `end` turned by one. */
  ghost function Rotated(s: seq<string>, index: nat, end: nat): seq<string>
    requires index < end <= |s|
  {
    s[..index] + s[index + 1..end] + [s[index]] + s[end..]
  }

  /** ... half way: those before `i` have moved up. */
  ghost function Shifted(s: seq<string>, index: nat, i: nat): seq<string>
    requires index <= i < |s|
  {
    s[..index] + s[index + 1..i + 1] + s[i..]
  }

  lemma ShiftOne(s: seq<string>, index: nat, i: nat)
    requires index <= i < |s| - 1
    ensures |Shifted(s, index, i)| == |s| && Shifted(s, index, i)[i := Shifted(s, index, i)[i + 1]] == Shifted(s, index, i + 1)
  {
  }

  lemma ShiftLast(s: seq<string>, index: nat, end: nat)
    requires index < end <= |s|
    ensures Shifted(s, index, index) == s
    ensures |Shifted(s, index, end - 1)| == |s| && Shifted(s, index, end - 1)[end - 1 := s[index]] == Rotated(s, index, end)
  {
  }

  lemma RotatedIs(front: seq<string>, a: string, args: seq<string>, moved: nat)
    requires moved <= |args|
    ensures Rotated(front + [a] + args, |front|, |front| + 1 + moved) == front + (args[..moved] + [a] + args[moved..])
  {
  }

  // ----- parsing a whole argument vector -----

  /** What calling until -1 gives: the options in order and the letter of its argument each was read from, the
      arguments they used up, and those left; and whether -1 was reached. */
  datatype Parsed = Parsed(events: seq<Event>, letters: seq<nat>, used: seq<string>, left: seq<string>, ended: bool)

  ghost predicate NonOption(arg: string) { !IsDashDash(arg) && !IsShortOpt(arg) }

  /** The letters a call can still read from the first option argument. */
  ghost function LettersLeft(args: seq<string>, k: nat): nat
    decreases args
  {
    if args == [] || IsDashDash(args[0]) then 0
    else if IsShortOpt(args[0]) then (if k < |args[0]| then |args[0]| - k else 0)
    else LettersLeft(args[1..], k)
  }

  /** Calling with permute until -1, or until there is nothing that can be read. */
  ghost function CallAll(args: seq<string>, k: nat, optstring: string): Parsed
    decreases |args|, LettersLeft(args, k)
  {
    if !Readable(args, k) then Parsed([], [], [], args, false)
    else
      var c := Next(args, k, optstring, true);
      if c.event == End then Parsed([], [], c.args[..c.moved], c.args[c.moved..], true)
      else if c.moved == 0 && !(LettersLeft(c.args, c.subopt) < LettersLeft(args, k)) then Parsed([], [], [], args, false)
      else
        After(c.event, k, c.args[..c.moved], CallAll(c.args[c.moved..], c.subopt, optstring))
  }

  /** One event before the rest. */
  ghost function After(event: Event, k: nat, used: seq<string>, rest: Parsed): Parsed {
    Parsed([event] + rest.events, [k] + rest.letters, used + rest.used, rest.left, rest.ended)
  }

  lemma AfterSame(event: Event, k: nat, used: seq<string>, p: Parsed, q: Parsed)
    ensures After(event, k, used, p) == After(event, k, used, q) <==> p == q
  {
    var a, b := After(event, k, used, p), After(event, k, used, q);
    assert a.events[1..] == p.events && b.events[1..] == q.events;
    assert a.letters[1..] == p.letters && b.letters[1..] == q.letters;
    assert a.used[|used|..] == p.used && b.used[|used|..] == q.used;
  }

  /** The options in one cluster of letters, and whether the last takes the next argument. */
  ghost function Cluster(letters: string, next: Option<string>, optstring: string): (seq<Event>, bool)
    decreases letters
  {
    if letters == "" then ([], false)
    else
      var c, rest := letters[0], letters[1..];
      match ArgType(optstring, c)
      case 0 =>
        var (events, takes) := Cluster(rest, next, optstring);
        ([Letter(c, None)] + events, takes)
      case 1 =>
        if rest != "" then ([Letter(c, Some(rest))], false)
        else if next.Some? then ([Letter(c, next)], true)
        else ([Missing(c)], false)
      case 2 => ([Letter(c, if rest != "" then Some(rest) else None)], false)
      case _ => ([Unknown(c)], false)
  }

  ghost function Indices(k: nat, n: nat): seq<nat> { seq(n, i requires 0 <= i < n => k + i) }

  /** What options mean, without any moving of arguments: options with their arguments wherever they are,
      up to "--", each argument read from its first letter on, and the others left in order. */
  ghost function Meaning(args: seq<string>, optstring: string): Parsed
    decreases |args|
  {
    if args == [] then Parsed([], [], [], [], true)
    else if IsDashDash(args[0]) then Parsed([], [], [args[0]], args[1..], true)
    else if IsShortOpt(args[0]) then
      var (events, takes) := Cluster(args[0][1..], if |args| > 1 then Some(args[1]) else None, optstring);
      var n := if takes && |args| > 1 then 2 else 1;
      var rest := Meaning(args[n..], optstring);
      Parsed(events + rest.events, Indices(0, |events|) + rest.letters, args[..n] + rest.used, rest.left, rest.ended)
    else
      var rest := Meaning(args[1..], optstring);
      rest.(left := [args[0]] + rest.left)
  }

  /** The letters are read without stopping at an unknown one behind another. */
  ghost predicate InnerKnown(letters: string, optstring: string, first: bool)
    decreases letters
  {
    letters == "" ||
    match ArgType(optstring, letters[0])
    case 0 => InnerKnown(letters[1..], optstring, false)
    case 1 => true
    case 2 => true
    case _ => first
  }

  /** There is another option argument before "--". */
  ghost predicate OptionAhead(args: seq<string>)
    decreases |args|
  {
    args != [] && !IsDashDash(args[0]) && (IsShortOpt(args[0]) || OptionAhead(args[1..]))
  }

  /** No option argument that stops at an unknown letter behind another has another one after it. */
  ghost predicate StopsLast(args: seq<string>, optstring: string)
    decreases |args|
  {
    if args == [] || IsDashDash(args[0]) then true
    else if IsShortOpt(args[0]) then StopsLastFrom(args, 0, optstring)
    else StopsLast(args[1..], optstring)
  }

  ghost predicate StopsLastFrom(args: seq<string>, k: nat, optstring: string)
    requires args != [] && k + 1 <= |args[0]|
    decreases |args|, 0
  {
    if InnerKnown(args[0][k + 1..], optstring, k == 0) then StopsLast(args[if Takes(args, k, optstring) then 2 else 1..], optstring)
    else !OptionAhead(args[1..])
  }

  /** The meaning of what is left once `k` letters of the first option argument were read. */
  ghost function MeaningFrom(args: seq<string>, k: nat, optstring: string): Parsed {
    if args == [] || k == 0 || !IsShortOpt(args[0]) || k + 1 > |args[0]| then Meaning(args, optstring)
    else
      var (events, takes) := Cluster(args[0][k + 1..], if |args| > 1 then Some(args[1]) else None, optstring);
      var n := if takes && |args| > 1 then 2 else 1;
      var rest := Meaning(args[n..], optstring);
      Parsed(events + rest.events, Indices(k, |events|) + rest.letters, args[..n] + rest.used, rest.left, rest.ended)
  }

  /** A call skips the non-options in front: they go behind what it uses up. */
  lemma {:induction false} NextSkips(front: seq<string>, args: seq<string>, k: nat, optstring: string)
    requires (forall i :: 0 <= i < |front| ==> NonOption(front[i])) && Readable(args, k)
    ensures Readable(front + args, k)
    ensures var c, d := Next(front + args, k, optstring, true), Next(args, k, optstring, true);
            && c.event == d.event && c.moved == d.moved && c.subopt == d.subopt
            && c.args == d.args[..d.moved] + front + d.args[d.moved..]
    ensures LettersLeft(front + args, k) == LettersLeft(args, k)
  {
    hide Read;
    if front == [] {
      assert front + args == args;
      var d := Next(args, k, optstring, true);
      assert d.args == d.args[..d.moved] + [] + d.args[d.moved..];
    } else {
      assert (front + args)[1..] == front[1..] + args;
      NextSkips(front[1..], args, k, optstring);
      var d := Next(args, k, optstring, true);
      SkipArgs(front, d.args, d.moved);
    }
  }

  lemma SkipArgs(front: seq<string>, args: seq<string>, m: nat)
    requires front != [] && m <= |args|
    ensures var r := args[..m] + front[1..] + args[m..];
            r[..m] + [front[0]] + r[m..] == args[..m] + front + args[m..]
  {
    var r := args[..m] + front[1..] + args[m..];
    assert r[..m] == args[..m] && r[m..] == front[1..] + args[m..];
    assert front == [front[0]] + front[1..];
  }

  lemma CallAllOnce(front: seq<string>, args: seq<string>, k: nat, optstring: string)
    requires (forall i :: 0 <= i < |front| ==> NonOption(front[i])) && Readable(args, k)
    ensures var d := Next(args, k, optstring, true);
            var rest := front + d.args[d.moved..];
            CallAll(front + args, k, optstring) ==
              if d.event == End then Parsed([], [], d.args[..d.moved], rest, true)
              else if d.moved == 0 && !(LettersLeft(rest, d.subopt) < LettersLeft(args, k)) then Parsed([], [], [], front + args, false)
              else After(d.event, k, d.args[..d.moved], CallAll(rest, d.subopt, optstring))
  {
    hide Next, Readable, LettersLeft, After;
    NextSkips(front, args, k, optstring);
    NextSize(args, k, optstring);
    var c, d := Next(front + args, k, optstring, true), Next(args, k, optstring, true);
    var rest := front + d.args[d.moved..];
    Rejoin(d.args[..d.moved], front, d.args[d.moved..], c.args);
    if d.moved == 0 { assert c.args == rest; }
  }

  /** The events found and the arguments used so far, and what is still to come. */
  ghost predicate SoFar(all: Parsed, events: seq<Event>, used: seq<string>, rest: Parsed) {
    all.ended && rest.ended && all.events == events + rest.events && all.used == used + rest.used && all.left == rest.left
  }

  ghost predicate Found(all: Parsed, events: seq<Event>, used: seq<string>, left: seq<string>) {
    all.events == events && all.used == used && all.left == left
  }

  lemma SliceParts(s: seq<string>, front: seq<string>, args: seq<string>, from: nat, moved: nat)
    requires s == front + args && from <= |front| && moved <= |args|
    ensures s[..from] == front[..from] && s[from..|front| + moved] == front[from..] + args[..moved] && s[|front| + moved..] == args[moved..]
  {
  }

  lemma Parts(s: seq<string>, a: nat, b: nat)
    requires a <= b <= |s|
    ensures s == s[..a] + s[a..b] + s[b..]
  {
  }

  lemma Rejoin(u: seq<string>, v: seq<string>, w: seq<string>, s: seq<string>)
    requires s == u + v + w
    ensures s[..|u|] == u && s[|u|..] == v + w && |s| >= |u|
  {
    assert s == u + (v + w);
  }

  lemma SoFarStart(all: Parsed)
    requires all.ended
    ensures SoFar(all, [], [], all)
  {
    assert [] + all.events == all.events && [] + all.used == all.used;
  }

  lemma SoFarNext(all: Parsed, events: seq<Event>, done: seq<string>, event: Event, k: nat, used: seq<string>,
                  was: Parsed, rest: Parsed, left: seq<string>)
    requires SoFar(all, events, done, was)
    requires if event == End then was == Parsed([], [], used, left, true) else was == After(event, k, used, rest)
    ensures if event == End then Found(all, events, done + used, left) else SoFar(all, events + [event], done + used, rest)
  {
    assert events + ([event] + rest.events) == events + [event] + rest.events;
    assert done + (used + rest.used) == done + used + rest.used;
    assert events + [] == events;
  }

  lemma CallAllStep(args: seq<string>, k: nat, optstring: string)
    requires CallAll(args, k, optstring).ended
    ensures Readable(args, k)
    ensures var c := Next(args, k, optstring, true);
            if c.event == End then CallAll(args, k, optstring) == Parsed([], [], c.args[..c.moved], c.args[c.moved..], true)
            else
              && (c.moved > 0 || LettersLeft(c.args[c.moved..], c.subopt) < LettersLeft(args, k))
              && CallAll(args, k, optstring) == After(c.event, k, c.args[..c.moved], CallAll(c.args[c.moved..], c.subopt, optstring))
  {
    hide Next, Readable, LettersLeft;
    var c := Next(args, k, optstring, true);
    if c.moved == 0 { assert c.args[c.moved..] == c.args; }
  }

  lemma NextSize(args: seq<string>, k: nat, optstring: string)
    requires Readable(args, k)
    ensures var d := Next(args, k, optstring, true); |d.args| == |args| && d.moved <= |args|
  {
  }

  /** Calling until -1 finds every option with its argument, each argument read from its first letter on, and
      leaves the argument vector permuted with optind between what was used up and the rest, exactly if no
      option argument that stops at an unknown letter behind another has another option argument after it. */
  lemma {:induction false} FindsMeaningIff(front: seq<string>, args: seq<string>, k: nat, optstring: string)
    requires forall i :: 0 <= i < |front| ==> NonOption(front[i])
    requires k > 0 ==> args != [] && IsShortOpt(args[0]) && k + 1 < |args[0]|
    ensures CallAll(front + args, k, optstring) == Behind(front, MeaningFrom(args, k, optstring)) <==>
              if k == 0 then StopsLast(args, optstring) else StopsLastFrom(args, k, optstring)
    decreases |args|, LettersLeft(args, k)
  {
    hide CallAll, Cluster, InnerKnown, Next, NonOption, MeaningFrom, OptionAhead, LettersLeft, After;
    SkipMeaning(args, k, optstring);
    if args == [] || IsDashDash(args[0]) {
      EndMeaning(front, args, k, optstring);
    } else if !IsShortOpt(args[0]) {
      assert front + args == (front + [args[0]]) + args[1..];
      FindsMeaningIff(front + [args[0]], args[1..], 0, optstring);
      FromZero(args[1..], optstring);
      BehindOne(front, args[0], Meaning(args[1..], optstring));
    } else {
      var d := Next(args, k, optstring, true);
      ReadOne(args, k, optstring);
      CallAllOnce(front, args, k, optstring);
      if d.moved == 0 {
        assert d.args[d.moved..] == args && d.args[..d.moved] == [];
        NextSkips(front, args, k + 1, optstring);
        FindsMeaningIff(front, args, k + 1, optstring);
        BehindAfter(front, d.event, k, [], MeaningFrom(args, k + 1, optstring));
        AfterSame(d.event, k, [], CallAll(front + args, k + 1, optstring), Behind(front, MeaningFrom(args, k + 1, optstring)));
      } else {
        var rest := args[d.moved..];
        if d.subopt == 0 {
          FindsMeaningIff(front, rest, 0, optstring);
          FromZero(rest, optstring);
        } else {
          StaleIff(front, rest, d.subopt, optstring);
        }
        BehindAfter(front, d.event, k, args[..d.moved], Meaning(rest, optstring));
        AfterSame(d.event, k, args[..d.moved], CallAll(front + rest, d.subopt, optstring), Behind(front, Meaning(rest, optstring)));
      }
    }
  }

  /** ... with the non-options in front among those left. */
  ghost function Behind(front: seq<string>, p: Parsed): Parsed { p.(left := front + p.left) }

  lemma BehindOne(front: seq<string>, a: string, p: Parsed)
    ensures Behind(front + [a], p) == Behind(front, p.(left := [a] + p.left))
  {
    assert front + [a] + p.left == front + ([a] + p.left);
  }

  lemma BehindAfter(front: seq<string>, event: Event, k: nat, used: seq<string>, p: Parsed)
    ensures Behind(front, After(event, k, used, p)) == After(event, k, used, Behind(front, p))
  {
  }

  /** With a subopt that was left behind, an option argument is not read from its first letter. */
  lemma {:induction false} StaleIff(front: seq<string>, args: seq<string>, k: nat, optstring: string)
    requires k > 0 && forall i :: 0 <= i < |front| ==> NonOption(front[i])
    ensures CallAll(front + args, k, optstring) == Behind(front, Meaning(args, optstring)) <==> !OptionAhead(args)
    decreases |args|
  {
    hide CallAll, Cluster, Next, NonOption, LettersLeft;
    SkipMeaning(args, 0, optstring);
    FromZero(args, optstring);
    if args == [] || IsDashDash(args[0]) {
      EndMeaning(front, args, k, optstring);
    } else if !IsShortOpt(args[0]) {
      assert front + args == (front + [args[0]]) + args[1..];
      StaleIff(front + [args[0]], args[1..], k, optstring);
      BehindOne(front, args[0], Meaning(args[1..], optstring));
    } else {
      FirstLetter(args, optstring);
      if Readable(args, k) {
        CallAllOnce(front, args, k, optstring);
        ReadsOption(args, k, optstring);
      } else {
        UnreadableFront(front, args, k);
        Unreadable(front + args, k, optstring);
      }
    }
  }

  lemma FirstLetter(args: seq<string>, optstring: string)
    requires args != [] && IsShortOpt(args[0])
    ensures var m := Meaning(args, optstring); |m.letters| > 0 && m.letters[0] == 0
  {
    ClusterStep(args[0][1..], if |args| > 1 then Some(args[1]) else None, optstring);
  }

  lemma ReadsOption(args: seq<string>, k: nat, optstring: string)
    requires args != [] && IsShortOpt(args[0]) && Readable(args, k)
    ensures Next(args, k, optstring, true).event != End
  {
    TypeRange(optstring, LetterAt(args[0], k));
  }

  lemma Unreadable(args: seq<string>, k: nat, optstring: string)
    requires !Readable(args, k)
    ensures CallAll(args, k, optstring) == Parsed([], [], [], args, false)
  {
  }

  lemma {:induction false} UnreadableFront(front: seq<string>, args: seq<string>, k: nat)
    requires (forall i :: 0 <= i < |front| ==> NonOption(front[i])) && !Readable(args, k)
    ensures !Readable(front + args, k)
  {
    if front == [] {
      assert front + args == args;
    } else {
      assert (front + args)[1..] == front[1..] + args;
      UnreadableFront(front[1..], args, k);
    }
  }

  lemma EndMeaning(front: seq<string>, args: seq<string>, k: nat, optstring: string)
    requires (forall i :: 0 <= i < |front| ==> NonOption(front[i])) && (args == [] || IsDashDash(args[0]))
    ensures CallAll(front + args, k, optstring) == Behind(front, MeaningFrom(args, k, optstring))
    ensures MeaningFrom(args, k, optstring) == Meaning(args, optstring)
  {
    hide CallAll;
    CallAllOnce(front, args, k, optstring);
  }

  lemma SkipMeaning(args: seq<string>, k: nat, optstring: string)
    ensures args != [] && !IsDashDash(args[0]) && !IsShortOpt(args[0]) ==>
              NonOption(args[0]) && LettersLeft(args, k) == LettersLeft(args[1..], k)
              && var m, q := MeaningFrom(args, k, optstring), Meaning(args[1..], optstring); m == q.(left := [args[0]] + q.left)
  {
  }

  lemma FromZero(args: seq<string>, optstring: string)
    ensures MeaningFrom(args, 0, optstring) == Meaning(args, optstring)
  {
  }

  /** What reading one letter does to the meaning of what is left. */
  lemma ReadOne(args: seq<string>, k: nat, optstring: string)
    requires args != [] && IsShortOpt(args[0]) && k + 1 < |args[0]|
    ensures var d, m := Next(args, k, optstring, true), MeaningFrom(args, k, optstring);
            && d.event != End && d.args == args
            && if d.moved == 0 then
                 && d.subopt == k + 1 && k + 2 < |args[0]| && LettersLeft(args, k + 1) < LettersLeft(args, k)
                 && (StopsLastFrom(args, k, optstring) <==> StopsLastFrom(args, k + 1, optstring))
                 && m == After(d.event, k, [], MeaningFrom(args, k + 1, optstring))
               else
                 && (if d.subopt == 0 then StopsLastFrom(args, k, optstring) <==> StopsLast(args[d.moved..], optstring)
                     else d.subopt == k && (StopsLastFrom(args, k, optstring) <==> !OptionAhead(args[d.moved..])))
                 && m == After(d.event, k, args[..d.moved], Meaning(args[d.moved..], optstring))
  {
    hide Meaning, StopsLast, OptionAhead, MeaningFrom, Indices;
    var a, next := args[0], if |args| > 1 then Some(args[1]) else None;
    FromIs(args, k, optstring);
    if k + 2 < |a| { FromIs(args, k + 1, optstring); }
    ClusterStep(a[k + 1..], next, optstring);
    IndicesStep(k, |Cluster(a[k + 1..], next, optstring).0|);
    assert a[k + 1..][0] == a[k + 1] && a[k + 1..][1..] == a[k + 2..];
    InnerStep(a[k + 1..], optstring, k == 0);
  }

  lemma InnerStep(letters: string, optstring: string, first: bool)
    requires letters != ""
    ensures InnerKnown(letters, optstring, first) <==>
              match ArgType(optstring, letters[0])
              case 0 => InnerKnown(letters[1..], optstring, false)
              case 1 => true
              case 2 => true
              case _ => first
    ensures InnerKnown("", optstring, first)
  {
  }

  lemma IndicesStep(k: nat, n: nat)
    ensures n > 0 ==> Indices(k, n) == [k] + Indices(k + 1, n - 1)
    ensures Indices(k, 0) == [] && Indices(k, 1) == [k]
  {
  }

  lemma ClusterStep(letters: string, next: Option<string>, optstring: string)
    requires letters != ""
    ensures var (events, takes) := Cluster(letters, next, optstring);
            match ArgType(optstring, letters[0])
            case 0 =>
              if |letters| == 1 then events == [Letter(letters[0], None)] && !takes
              else
                var (more, t) := Cluster(letters[1..], next, optstring);
                events == [Letter(letters[0], None)] + more && takes == t
            case 1 =>
              && takes == (|letters| == 1 && next.Some?)
              && events == if |letters| > 1 then [Letter(letters[0], Some(letters[1..]))]
                           else if next.Some? then [Letter(letters[0], next)] else [Missing(letters[0])]
            case 2 => !takes && events == [Letter(letters[0], if |letters| > 1 then Some(letters[1..]) else None)]
            case _ => !takes && events == [Unknown(letters[0])]
  {
  }

  lemma FromIs(args: seq<string>, k: nat, optstring: string)
    requires args != [] && IsShortOpt(args[0]) && k + 1 < |args[0]|
    ensures var (events, takes) := Cluster(args[0][k + 1..], if |args| > 1 then Some(args[1]) else None, optstring);
            var n := if takes && |args| > 1 then 2 else 1;
            var rest := Meaning(args[n..], optstring);
            MeaningFrom(args, k, optstring)
              == Parsed(events + rest.events, Indices(k, |events|) + rest.letters, args[..n] + rest.used, rest.left, rest.ended)
  {
  }

  ghost predicate Takes(args: seq<string>, k: nat, optstring: string)
    requires args != [] && k + 1 <= |args[0]|
  {
    |args| > 1 && Cluster(args[0][k + 1..], Some(args[1]), optstring).1
  }

  /** The whole run, from optparse_init on: the arguments end up permuted. */
  lemma PermutesAll(args: seq<string>, optstring: string)
    ensures CallAll(args, 0, optstring) == Meaning(args, optstring) <==> StopsLast(args, optstring)
    ensures var m := Meaning(args, optstring); m.ended && multiset(m.used + m.left) == multiset(args)
  {
    FindsMeaningIff([], args, 0, optstring);
    FromZero(args, optstring);
    assert [] + args == args;
    var m := Meaning(args, optstring);
    assert [] + m.left == m.left;
    MeaningPermutes(args, optstring);
  }

  lemma {:induction false} MeaningPermutes(args: seq<string>, optstring: string)
    ensures var m := Meaning(args, optstring); m.ended && multiset(m.used + m.left) == multiset(args)
    decreases |args|
  {
    hide Cluster, Indices;
    if args == [] {
    } else if IsDashDash(args[0]) {
      assert [] + args[1..] == args[1..];
      UsedMore([], args[1..], args, 1);
    } else if IsShortOpt(args[0]) {
      var takes := Cluster(args[0][1..], if |args| > 1 then Some(args[1]) else None, optstring).1;
      var n := if takes && |args| > 1 then 2 else 1;
      MeaningPermutes(args[n..], optstring);
      var r := Meaning(args[n..], optstring);
      UsedMore(r.used, r.left, args, n);
    } else {
      MeaningPermutes(args[1..], optstring);
      var r := Meaning(args[1..], optstring);
      LeftMore(r.used, r.left, args);
    }
  }

  lemma UsedMore(used: seq<string>, left: seq<string>, args: seq<string>, n: nat)
    requires n <= |args| && multiset(used + left) == multiset(args[n..])
    ensures multiset(args[..n] + used + left) == multiset(args)
    ensures used == [] && n == 1 ==> multiset([args[0]] + left) == multiset(args)
  {
    assert args == args[..n] + args[n..];
    assert args[..n] + used + left == args[..n] + (used + left);
    if used == [] && n == 1 { assert [args[0]] + left == args[..n] + used + left; }
  }

  lemma LeftMore(used: seq<string>, left: seq<string>, args: seq<string>)
    requires args != [] && multiset(used + left) == multiset(args[1..])
    ensures multiset(used + ([args[0]] + left)) == multiset(args)
  {
    assert args == [args[0]] + args[1..];
  }

  /** A call leaves subopt pointing at what it has read exactly if it did not stop at an unknown letter
      behind another letter. */
  lemma SuboptIff(args: seq<string>, k: nat, optstring: string)
    requires args != [] && IsShortOpt(args[0]) && k + 1 < |args[0]|
    ensures var c := Next(args, k, optstring, true);
            c.subopt == (if c.moved == 0 then k + 1 else 0) <==> ArgType(optstring, args[0][k + 1]) != -1 || k == 0
  {
    TypeRange(optstring, args[0][k + 1]);
  }

  lemma {:induction false} TypeRange(optstring: string, c: char)
    ensures -1 <= ArgType(optstring, c) <= 2
    decreases optstring
  {
    if optstring != "" { TypeRange(optstring[1..], c); }
  }

  /** With options a, b and c: the unknown x in "-ax" leaves subopt at 1, and the b of "-bc" is passed over. */
  lemma PassedOverExample()
    ensures Next(["-ax", "-bc"], 1, "abc", true) == Call(Unknown('x'), ["-ax", "-bc"], 1, 1)
    ensures Next(["-bc"], 1, "abc", true) == Call(Letter('c', None), ["-bc"], 1, 0)
    ensures Meaning(["-bc"], "abc").events == [Letter('b', None), Letter('c', None)]
  {
    hide Meaning;
    assert ArgType("abc", 'c') == 0 && ArgType("abc", 'x') == -1;
    BothMeant();
  }

  lemma BothMeant()
    ensures Meaning(["-bc"], "abc").events == [Letter('b', None), Letter('c', None)]
  {
    hide Cluster, Indices, ArgType;
    assert ArgType("abc", 'b') == 0 && ArgType("abc", 'c') == 0 by { KnownTypes(); }
    assert "-bc"[1..] == "bc" && "bc"[1..] == "c";
    ClusterStep("bc", None, "abc");
    ClusterStep("c", None, "abc");
    assert ["-bc"][1..] == [];
  }

  lemma KnownTypes()
    ensures ArgType("abc", 'b') == 0 && ArgType("abc", 'c') == 0
  {
  }

  /** The whole run is wrong then. With no other option behind it, "-ax" does no harm. */
  lemma StopExample()
    ensures CallAll(["-ax", "-bc"], 0, "abc") != Meaning(["-ax", "-bc"], "abc")
    ensures CallAll(["-ax"], 0, "abc") == Meaning(["-ax"], "abc")
  {
    hide CallAll, Meaning, Cluster;
    assert ArgType("abc", 'a') == 0 && ArgType("abc", 'x') == -1;
    assert "-ax"[1..] == "ax" && "ax"[1..] == "x";
    InnerStep("ax", "abc", true);
    InnerStep("x", "abc", false);
    var two, one := ["-ax", "-bc"], ["-ax"];
    assert two[1..] == ["-bc"] && OptionAhead(two[1..]) && !OptionAhead(one[1..]);
    assert IsShortOpt("-ax") && !IsDashDash("-ax");
    assert !StopsLastFrom(two, 0, "abc") && StopsLastFrom(one, 0, "abc");
    PermutesAll(two, "abc");
    PermutesAll(one, "abc");
  }
}

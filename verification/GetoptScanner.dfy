/** getopt_internal as the object it is: fields that persist between calls, an argv that is permuted
    in place, and one option handed out per call. */
module GetoptScanner {
  import opened Common
  import opened Getopt
  import PermuteArgs

  // ---------------------------------------------------------------- layout of a partly scanned argv

  /** The words finished with so far that are options or their arguments: before the skipped
      non-options and, once options have turned up behind those, after them too. */
  ghost function Taken(a: seq<string>, start: int, end: int, optind: int): seq<string>
    requires LayoutOk(a, start, end, optind)
  {
    if start == -1 then a[1..optind]
    else if end == -1 then a[1..start]
    else a[1..start] + a[end..optind]
  }

  /** The non-options skipped so far. */
  ghost function Skipped(a: seq<string>, start: int, end: int, optind: int): seq<string>
    requires LayoutOk(a, start, end, optind)
  {
    if start == -1 then [] else if end == -1 then a[start..optind] else a[start..end]
  }

  ghost predicate LayoutOk(a: seq<string>, start: int, end: int, optind: int) {
    && 1 <= optind <= |a|
    && (start == -1 ==> end == -1)
    && (start != -1 ==> 1 <= start < optind)
    && (end != -1 ==> start < end <= optind)
  }

  /** Moving the skipped block behind the options that followed it. */
  lemma PermuteLayout(a: seq<string>, start: nat, end: nat, optind: nat)
    requires LayoutOk(a, start, end, optind) && end < optind
    ensures var b := PermuteArgs.Exchanged(a, start, end, optind);
            var start' := optind - (end - start);
            && b[0] == a[0] && b[optind..] == a[optind..]
            && b[1..start'] == Taken(a, start, end, optind) && b[start'..optind] == Skipped(a, start, end, optind)
            && b[start'] == a[start]
  {
    var b := PermuteArgs.Exchanged(a, start, end, optind);
    var k := optind - (end - start);
    assert a[..start] == [a[0]] + a[1..start];
    assert b[1..k] == a[1..start] + a[end..optind];
    assert b[k..optind] == a[start..end];
    assert b[optind..] == a[optind..];
  }

  // ---------------------------------------------------------------- one step, on the meaning

  lemma StepInWord(c: Config, rest: string, lone: bool, args: seq<string>)
    requires args != [] && rest != ""
    ensures var o := Step(c, rest, lone, args[1..]);
            && (o.place != "" ==>
                  && ScanWord(c, rest, lone, args) == ScanWord(c, o.place, false, args)
                  && ItemsWord(c, rest, lone, args) == [Item(o.ret, o.arg)] + ItemsWord(c, o.place, false, args)
                  && MeetsDashWord(c, rest, lone, args) == MeetsDashWord(c, o.place, false, args))
            && (o.place == "" && !o.dash ==>
                  && o.adv <= |args|
                  && ScanWord(c, rest, lone, args) == Split(args[..o.adv] + Scan(c, args[o.adv..]).options, Scan(c, args[o.adv..]).operands)
                  && ItemsWord(c, rest, lone, args) == [Item(o.ret, o.arg)] + Items(c, args[o.adv..])
                  && MeetsDashWord(c, rest, lone, args) == MeetsDash(c, args[o.adv..]))
  {
    hide Step, Scan, Items, MeetsDash;
    var o := Step(c, rest, lone, args[1..]);
    if o.place != "" {
      assert Width(c, rest, lone, args[1..]) == Width(c, o.place, false, args[1..]);
    }
  }

  /** One step of an option word, on the layout of the vector. */
  lemma WordStep(c: Config, a: seq<string>, start: int, end: int, o: nat, given: seq<string>, rest: string, lone: bool, out: Outcome)
    requires LayoutOk(a, start, end, o) && (start != -1 ==> end != -1) && o < |a| == |given| && a[o..] == given[o..] && rest != ""
    requires out == Step(c, rest, lone, given[o..][1..]) && !out.dash
    requires var ahead := ScanWord(c, rest, lone, given[o..]);
             Scan(c, given[1..]) == Split(Taken(a, start, end, o) + ahead.options, Skipped(a, start, end, o) + ahead.operands)
    ensures out.place != "" ==>
      var ahead := ScanWord(c, out.place, false, given[o..]);
      && Scan(c, given[1..]) == Split(Taken(a, start, end, o) + ahead.options, Skipped(a, start, end, o) + ahead.operands)
      && ItemsWord(c, rest, lone, given[o..]) == [Item(out.ret, out.arg)] + ItemsWord(c, out.place, false, given[o..])
      && MeetsDashWord(c, rest, lone, given[o..]) == MeetsDashWord(c, out.place, false, given[o..])
    ensures out.place == "" ==>
      && o + out.adv <= |a| && LayoutOk(a, start, end, o + out.adv) && a[o + out.adv..] == given[o + out.adv..]
      && var ahead := Scan(c, given[o + out.adv..]);
         && Scan(c, given[1..]) == Split(Taken(a, start, end, o + out.adv) + ahead.options, Skipped(a, start, end, o + out.adv) + ahead.operands)
         && ItemsWord(c, rest, lone, given[o..]) == [Item(out.ret, out.arg)] + Items(c, given[o + out.adv..])
         && MeetsDashWord(c, rest, lone, given[o..]) == MeetsDash(c, given[o + out.adv..])
  {
    hide Scan, ScanWord, Items, ItemsWord, MeetsDash, MeetsDashWord, Step, Taken, Skipped, LayoutOk;
    var args := given[o..];
    StepInWord(c, rest, lone, args);
    if out.place == "" {
      var n := out.adv;
      assert args[n..] == given[o + n..] && a[o..][n..] == a[o + n..];
      assert a[o..o + n] == a[o..][..n] == args[..n];
      TakenGrows(a, start, end, o, n);
      var r := Scan(c, given[o + n..]);
      assert Taken(a, start, end, o) + (args[..n] + r.options) == Taken(a, start, end, o) + args[..n] + r.options;
    }
  }

  /** In `b` the options taken come first, then the skipped words up to `optind`, then the rest. */
  ghost predicate Tidy(b: seq<string>, first: string, taken: seq<string>, skipped: seq<string>, rest: seq<string>, start: int, optind: int) {
    && 1 <= start <= optind <= |b|
    && b[0] == first && b[1..start] == taken && b[start..optind] == skipped && b[optind..] == rest
  }

  lemma TidyWithout(a: seq<string>, start: int, optind: int)
    requires LayoutOk(a, start, -1, optind)
    ensures var k := if start == -1 then optind else start;
            Tidy(a, a[0], Taken(a, start, -1, optind), Skipped(a, start, -1, optind), a[optind..], k, optind)
  {}

  lemma TidySkips(b: seq<string>, first: string, taken: seq<string>, skipped: seq<string>, rest: seq<string>, start: int, optind: int)
    requires Tidy(b, first, taken, skipped, rest, start, optind) && optind < |b|
    ensures LayoutOk(b, start, -1, optind + 1) && b[optind + 1..] == rest[1..]
    ensures Taken(b, start, -1, optind + 1) == taken && Skipped(b, start, -1, optind + 1) == skipped + [b[optind]]
  {
    assert b[start..optind + 1] == b[start..optind] + [b[optind]];
  }

  lemma TidyConcludes(b: seq<string>, first: string, taken: seq<string>, skipped: seq<string>, rest: seq<string>, start: int, optind: int)
    requires Tidy(b, first, taken, skipped, rest, start, optind)
    ensures b == [first] + taken + (skipped + rest) && start == 1 + |taken|
  {
    assert b == [b[0]] + b[1..start] + (b[start..optind] + b[optind..]);
  }

  /** Finishing with `n` words after the skipped ones adds them to the options taken. */
  lemma TakenGrows(a: seq<string>, start: int, end: int, optind: int, n: nat)
    requires LayoutOk(a, start, end, optind) && (start != -1 ==> end != -1) && optind + n <= |a|
    ensures LayoutOk(a, start, end, optind + n)
    ensures Taken(a, start, end, optind + n) == Taken(a, start, end, optind) + a[optind..optind + n]
    ensures Skipped(a, start, end, optind + n) == Skipped(a, start, end, optind)
  {
    assert a[1..optind + n] == a[1..optind] + a[optind..optind + n];
    if end != -1 { assert a[end..optind + n] == a[end..optind] + a[optind..optind + n]; }
  }

  lemma ScanSkips(c: Config, args: seq<string>)
    requires ModeOf(c) == Permuting && args != [] && NonOption(c, args[0])
    ensures Scan(c, args) == Split(Scan(c, args[1..]).options, [args[0]] + Scan(c, args[1..]).operands)
    ensures Items(c, args) == Items(c, args[1..]) && MeetsDash(c, args) == MeetsDash(c, args[1..])
  {}

  /** Where nothing, or in stopping mode a non-option, is ahead, no options are left. */
  lemma ScanStops(c: Config, args: seq<string>, taken: seq<string>)
    ensures args == [] || (NonOption(c, args[0]) && ModeOf(c) == Stopping) ==>
      Scan(c, args) == Split([], args) && Items(c, args) == [] && !MeetsDash(c, args)
    ensures taken + [] == taken
  {}

  lemma ScanDashes(c: Config, args: seq<string>)
    requires args != [] && args[0] == "--"
    ensures Scan(c, args) == Split(["--"], args[1..]) && Items(c, args) == [] && !MeetsDash(c, args) && !NonOption(c, args[0])
  {}

  lemma EndSet(a: seq<string>, start: int, optind: int)
    requires LayoutOk(a, start, -1, optind) && start != -1
    ensures LayoutOk(a, start, optind, optind)
    ensures Taken(a, start, optind, optind) == Taken(a, start, -1, optind)
    ensures Skipped(a, start, optind, optind) == Skipped(a, start, -1, optind)
  {}

  lemma OptionWord(c: Config, args: seq<string>)
    requires args != [] && !NonOption(c, args[0]) && args[0] != "--"
    ensures |args[0]| >= 2 || args[0] == "-"
    ensures Scan(c, args) == ScanWord(c, Body(args[0]), args[0] == "-", args)
    ensures Items(c, args) == ItemsWord(c, Body(args[0]), args[0] == "-", args)
    ensures MeetsDash(c, args) == MeetsDashWord(c, Body(args[0]), args[0] == "-", args)
  {}

  method IsNonOption(c: Config, w: string) returns (b: bool)
    ensures b <==> NonOption(c, w)
  {
    b := w == "" || w[0] != '-' || (|w| == 1 && '-' !in Letters(c));
  }

  class Scanner {
    const cfg: Config
    const argv: array<string>
    var optind: int
    var place: string          // the unread part of the current option word
    var nonoptStart: int       // first skipped non-option, or -1
    var nonoptEnd: int         // first option after them, or -1
    var optarg: Option<string>
    var optopt: int
    var idx: int               // *idx of getopt_long
    ghost const given: seq<string>   // argv as it was

    /** What the words from `optind` on, and the rest of the current word, still mean. */
    ghost function Ahead(): Split
      reads this
      requires 0 <= optind <= |given| && (place != "" ==> optind < |given|)
    {
      if place == "" then Scan(cfg, given[optind..]) else ScanWord(cfg, place, false, given[optind..])
    }

    /** The options still to be handed out. */
    ghost function Pending(): seq<Item>
      reads this
      requires 0 <= optind <= |given| && (place != "" ==> optind < |given|)
    {
      if place == "" then Items(cfg, given[optind..]) else ItemsWord(cfg, place, false, given[optind..])
    }

    /** The exit that leaves the scan unfinished is still to come. */
    ghost predicate DashAhead()
      reads this
      requires 0 <= optind <= |given| && (place != "" ==> optind < |given|)
    {
      if place == "" then MeetsDash(cfg, given[optind..]) else MeetsDashWord(cfg, place, false, given[optind..])
    }

    ghost predicate Shaped()
      reads this, argv
    {
      && ValidTable(cfg)
      && |given| == argv.Length && LayoutOk(argv[..], nonoptStart, nonoptEnd, optind)
      && argv[0] == given[0] && argv[optind..] == given[optind..]
      && (place != "" ==> optind < argv.Length && (nonoptStart != -1 ==> nonoptEnd != -1))
      && (place == "" && nonoptEnd != -1 ==> nonoptEnd < optind)
      && (nonoptStart != -1 ==> ModeOf(cfg) == Permuting && NonOption(cfg, argv[nonoptStart]))
      && (nonoptEnd != -1 ==> nonoptEnd < argv.Length && !NonOption(cfg, argv[nonoptEnd]))
    }

    /** The reordering so far agrees with the meaning of the vector as it was given. */
    ghost predicate Valid()
      reads this, argv
    {
      && Shaped()
      && Scan(cfg, given[1..]) == Split(Taken(argv[..], nonoptStart, nonoptEnd, optind) + Ahead().options,
                                        Skipped(argv[..], nonoptStart, nonoptEnd, optind) + Ahead().operands)
    }

    /** In every state between calls argv is a permutation of what it was. */
    lemma WordsKept()
      requires Valid()
      ensures multiset(argv[..]) == multiset(given)
    {
      hide Scan, Merge, Taken, Skipped, ScanWord, NonOption;
      if place == "" { ScanMerges(cfg, given[optind..]); } else { ScanWordMerges(cfg, place, false, given[optind..]); }
      KeepsWords(cfg, argv[..], nonoptStart, nonoptEnd, optind, given, Ahead());
    }

    /** Everything is where the documentation says: options first, then operands, optind at the
        first operand. */
    ghost predicate Finished()
      reads this, argv
    {
      && |given| == argv.Length >= 1
      && var s := Scan(cfg, given[1..]);
         argv[..] == [given[0]] + s.options + s.operands && optind == 1 + |s.options|
    }

    /** The state in which the next call returns -1 without having finished: a '-' at the end of a
        cluster of letters, not itself an option letter, and no long options to take it. */
    predicate DashPending()
      reads this
    {
      place == "-" && cfg.long.None? && '-' !in Letters(cfg)
    }

    constructor (cfg: Config, argv: array<string>)
      requires argv.Length >= 1 && ValidTable(cfg)
      ensures Valid() && this.cfg == cfg && this.argv == argv && given == argv[..]
      ensures optind == 1 && place == "" && Pending() == Items(cfg, argv[1..]) && DashAhead() == MeetsDash(cfg, argv[1..])
    {
      this.cfg, this.argv, this.given := cfg, argv, argv[..];
      optind, place, nonoptStart, nonoptEnd := 1, "", -1, -1;
      optarg, optopt, idx := None, '?' as int, 0;
    }

    // -------------------------------------------------------------- one option

    /** parse_long_options on text held by the word at optind. */
    method ParseLong(table: seq<LongOption>, cur: string, shortToo: bool) returns (ret: int)
      requires 0 <= optind < argv.Length && optarg == None
      requires forall i :: 0 <= i < |table| ==> table[i].val != -1
      modifies this`optind, this`optarg, this`optopt, this`idx
      ensures match LongStep(cfg, table, cur, shortToo, argv[old(optind) + 1..])
              case None => ret == -1 && optind == old(optind) && optarg == None
              case Some(o) => ret == o.ret != -1 && optind == old(optind) + o.adv && optarg == o.arg
                              && (o.optopt.Some? ==> optopt == o.optopt.value)
                              && (o.idx.Some? ==> idx == o.idx.value)
    {
      ghost var next := argv[optind + 1..];
      optind := optind + 1;
      var eq := Find(cur, '=');
      var name, hasEqual := cur, None;
      if eq.Some? {
        name, hasEqual := cur[..eq.value], Some(cur[eq.value + 1..]);
      }
      var m := FindLong(table, name, shortToo);
      if m.Ambiguous? {
        optopt := 0;
        return BADCH;
      }
      if m.Unknown? {
        if shortToo {
          optind := optind - 1;
          return -1;
        }
        optopt := 0;
        return BADCH;
      }
      var o := table[m.i];
      if o.hasArg.NoArgument? && hasEqual.Some? {
        optopt := if o.flag.None? then o.val else 0;
        return BadArg(cfg);
      }
      if o.hasArg.RequiredArgument? || o.hasArg.OptionalArgument? {
        if hasEqual.Some? {
          optarg := hasEqual;
        } else if o.hasArg.RequiredArgument? {
          // argv ends with a null pointer
          optarg := if optind < argv.Length then Some(argv[optind]) else None;
          optind := optind + 1;
        }
      }
      if o.hasArg.RequiredArgument? && optarg == None {
        optopt := if o.flag.None? then o.val else 0;
        optind := optind - 1;
        return BadArg(cfg);
      }
      idx := m.i;
      ret := if o.flag.Some? then 0 else o.val;
    }

    /** getopt_internal from the point where `place` holds the unread part of the word at optind. */
    method Letter(lone: bool) returns (ret: int)
      requires ValidTable(cfg) && 0 <= optind < argv.Length && place != "" && optarg == None
      modifies this`optind, this`place, this`optarg, this`optopt, this`idx
      ensures var o := Step(cfg, old(place), lone, argv[old(optind) + 1..]);
              && ret == o.ret && optind == old(optind) + o.adv && place == o.place && optarg == o.arg
              && (o.optopt.Some? ==> optopt == o.optopt.value) && (o.idx.Some? ==> idx == o.idx.value)
    {
      hide LongStep, ShortStep;
      var letters := Letters(cfg);
      if cfg.long.Some? && !lone && (place[0] == '-' || cfg.longOnly) {
        var shortToo := false;
        var cur := place;
        if place[0] == '-' {
          cur := place[1..];
        } else if place[0] != ':' && place[0] in letters {
          shortToo := true;
        }
        ret := ParseLong(cfg.long.value, cur, shortToo);
        if ret != -1 {
          place := "";
          return;
        }
      }
      ret := ShortLetter();
    }

    /** The same once the word is known not to be a long option. */
    method ShortLetter() returns (ret: int)
      requires ValidTable(cfg) && 0 <= optind < argv.Length && place != "" && optarg == None
      modifies this`optind, this`place, this`optarg, this`optopt, this`idx
      ensures var o := ShortStep(cfg, old(place), argv[old(optind) + 1..]);
              && ret == o.ret && optind == old(optind) + o.adv && place == o.place && optarg == o.arg
              && (o.optopt.Some? ==> optopt == o.optopt.value) && (o.idx.Some? ==> idx == o.idx.value)
    {
      hide LongStep, Find, Follows;
      var letters := Letters(cfg);
      var optchar := place[0];
      place := place[1..];
      var oli := Find(letters, optchar);
      if optchar == ':' || (optchar == '-' && place != "") || oli.None? {
        if optchar == '-' && place == "" {
          return -1;
        }
        if place == "" {
          optind := optind + 1;
        }
        optopt := optchar as int;
        return BADCH;
      }
      if cfg.long.Some? && optchar == 'W' && Follows(letters, oli.value, ';') {
        var cur := place;
        if place == "" {
          optind := optind + 1;
          if optind >= argv.Length {
            place := "";
            optopt := optchar as int;
            return BadArg(cfg);
          }
          cur := argv[optind];
          assert argv[optind + 1..] == argv[old(optind) + 1..][1..];
        }
        ret := ParseLong(cfg.long.value, cur, false);
        place := "";
        return;
      }
      if !Follows(letters, oli.value, ':') {
        if place == "" {
          optind := optind + 1;
        }
      } else {
        if place != "" {
          optarg := Some(place);
        } else if !Follows(letters, oli.value + 1, ':') {
          optind := optind + 1;
          if optind >= argv.Length {
            place := "";
            optopt := optchar as int;
            return BadArg(cfg);
          }
          optarg := Some(argv[optind]);
        }
        place := "";
        optind := optind + 1;
      }
      ret := optchar as int;
    }

    // -------------------------------------------------------------- non-options

    /** The skipped block is moved behind the options that followed it. */
    method MoveSkipped()
      requires LayoutOk(argv[..], nonoptStart, nonoptEnd, optind) && nonoptEnd != -1 && nonoptEnd < optind
      modifies argv
      ensures var start := optind - (nonoptEnd - nonoptStart);
              && Tidy(argv[..], old(argv[0]), old(Taken(argv[..], nonoptStart, nonoptEnd, optind)),
                      old(Skipped(argv[..], nonoptStart, nonoptEnd, optind)), old(argv[optind..]), start, optind)
              && start < optind && argv[start] == old(argv[nonoptStart])
    {
      hide PermuteArgs.Exchanged;
      PermuteLayout(argv[..], nonoptStart, nonoptEnd, optind);
      PermuteArgs.Permute(nonoptStart, nonoptEnd, optind, argv);
    }

    /** A non-option is found and permutation is on: put it behind the ones already skipped. */
    method Skip()
      requires Valid() && place == "" && optind < argv.Length
      requires ModeOf(cfg) == Permuting && NonOption(cfg, argv[optind])
      modifies argv, this`optind, this`nonoptStart, this`nonoptEnd
      ensures Valid() && place == "" && Pending() == old(Pending()) && DashAhead() == old(DashAhead()) && optind == old(optind) + 1
    {
      hide Taken, Skipped, NonOption, Scan, Items, MeetsDash;
      ghost var a, args, taken, skipped := argv[..], given[optind..], Taken(argv[..], nonoptStart, nonoptEnd, optind),
                                           Skipped(argv[..], nonoptStart, nonoptEnd, optind);
      ScanSkips(cfg, args);
      assert args[1..] == given[optind + 1..] && args[0] == a[optind..][0];
      if nonoptEnd == -1 { TidyWithout(a, nonoptStart, optind); }
      if nonoptStart == -1 {
        nonoptStart := optind;
      } else if nonoptEnd != -1 {
        MoveSkipped();
        nonoptStart := optind - (nonoptEnd - nonoptStart);
        nonoptEnd := -1;
      }
      assert argv[optind] == argv[optind..][0];
      TidySkips(argv[..], a[0], taken, skipped, args, nonoptStart, optind);
      optind := optind + 1;
    }

    /** No more options: the skipped non-options go behind everything scanned. */
    method Conclude()
      requires Shaped() && place == "" && (nonoptStart != -1 && nonoptEnd == -1 ==> optind == argv.Length)
      requires Scan(cfg, given[1..]) == Split(Taken(argv[..], nonoptStart, nonoptEnd, optind),
                                              Skipped(argv[..], nonoptStart, nonoptEnd, optind) + given[optind..])
      modifies argv, this`optind, this`nonoptStart, this`nonoptEnd
      ensures Finished() && nonoptStart == nonoptEnd == -1
    {
      hide Taken, Skipped, NonOption, Scan;
      ghost var a, o, taken, skipped := argv[..], optind, Taken(argv[..], nonoptStart, nonoptEnd, optind),
                                        Skipped(argv[..], nonoptStart, nonoptEnd, optind);
      if nonoptEnd == -1 { TidyWithout(a, nonoptStart, optind); }
      if nonoptEnd != -1 {
        MoveSkipped();
        optind := optind - (nonoptEnd - nonoptStart);
      } else if nonoptStart != -1 {
        optind := nonoptStart;
      }
      TidyConcludes(argv[..], a[0], taken, skipped, given[o..], optind, o);
      nonoptStart, nonoptEnd := -1, -1;
    }

    // -------------------------------------------------------------- one call

    /** Getting past the non-options to the next option word; the `start:` loop of getopt_internal.
        `ret` is what to return at once, unless `more`. */
    method NextWord() returns (more: bool, ret: int)
      requires Valid() && place == ""
      modifies argv, this`optind, this`nonoptStart, this`nonoptEnd, this`optarg
      ensures place == ""
      ensures more ==> Valid() && Pending() == old(Pending()) && DashAhead() == old(DashAhead()) && optind < argv.Length && optarg == None
                       && !NonOption(cfg, argv[optind]) && argv[optind] != "--" && optind >= old(optind)
      ensures !more && ret != -1 ==>
        Valid() && old(Pending()) == [Item(ret, optarg)] + Pending() && DashAhead() == old(DashAhead()) && optind > old(optind)
      ensures !more && ret == -1 ==> Finished() && old(Pending()) == [] && !old(DashAhead())
    {
      hide NonOption, Scan, Items, ScanWord, ItemsWord, MeetsDash, MeetsDashWord, Taken, Skipped;
      optarg := None;
      while true
        invariant Valid() && place == "" && optind >= old(optind) && optarg == None
        invariant Pending() == old(Pending()) && DashAhead() == old(DashAhead())
        decreases argv.Length - optind
      {
        ghost var args := given[optind..];
        ScanStops(cfg, args, Taken(argv[..], nonoptStart, nonoptEnd, optind));
        if optind >= argv.Length {
          Conclude();
          return false, -1;
        }
        assert args[0] == argv[optind..][0];
        var nonOption := IsNonOption(cfg, argv[optind]);
        if !nonOption { break; }
        if ModeOf(cfg) == InOrder {
          optarg := Some(argv[optind]);
          InOrderStep();
          return false, INORDER;
        }
        if ModeOf(cfg) == Stopping {
          Conclude();
          return false, -1;
        }
        Skip();
      }
      if argv[optind] == "--" {
        DashDash();
        return false, -1;
      }
      return true, 0;
    }

    method InOrderStep()
      requires Valid() && place == "" && optind < argv.Length && ModeOf(cfg) == InOrder && NonOption(cfg, argv[optind])
      modifies this`optind
      ensures Valid() && optind == old(optind) + 1 && old(Pending()) == [Item(INORDER, Some(argv[old(optind)]))] + Pending()
      ensures DashAhead() == old(DashAhead())
    {
      hide NonOption, Taken, Skipped;
      ghost var args := given[optind..];
      assert args[0] == argv[optind..][0] && args[1..] == given[optind + 1..];
      TakenGrows(argv[..], nonoptStart, nonoptEnd, optind, 1);
      assert argv[optind..optind + 1] == [args[0]];
      optind := optind + 1;
      assert argv[optind..] == argv[optind - 1..][1..];
    }

    method DashDash()
      requires Valid() && place == "" && optind < argv.Length && argv[optind] == "--"
      modifies argv, this`optind, this`nonoptStart, this`nonoptEnd
      ensures Finished() && old(Pending()) == [] && !old(DashAhead())
    {
      hide Taken, Skipped, Scan, Items, ScanWord, ItemsWord, MeetsDash, MeetsDashWord, NonOption;
      ghost var args := given[optind..];
      assert args[0] == argv[optind..][0] && args[1..] == given[optind + 1..];
      ScanDashes(cfg, args);
      ghost var a, start, end := argv[..], nonoptStart, nonoptEnd;
      if nonoptStart != -1 && nonoptEnd == -1 {
        nonoptEnd := optind;
        EndSet(a, start, optind);
      }
      TakenGrows(a, nonoptStart, nonoptEnd, optind, 1);
      assert a[optind..optind + 1] == ["--"];
      optind := optind + 1;
      assert argv[optind..] == argv[optind - 1..][1..];
      Conclude();
    }

    /** Inside the option word at optind, with `place` of it still to be read. */
    ghost predicate InWord(lone: bool)
      reads this, argv
    {
      && Shaped() && place != ""
      && var ahead := ScanWord(cfg, place, lone, given[optind..]);
         Scan(cfg, given[1..]) == Split(Taken(argv[..], nonoptStart, nonoptEnd, optind) + ahead.options,
                                        Skipped(argv[..], nonoptStart, nonoptEnd, optind) + ahead.operands)
    }

    method Continue(lone: bool) returns (ret: int)
      requires InWord(lone) && optarg == None
      modifies this`optind, this`place, this`optarg, this`optopt, this`idx
      ensures ret != -1 ==> Valid() && old(ItemsWord(cfg, place, lone, given[optind..])) == [Item(ret, optarg)] + Pending()
                            && DashAhead() == old(MeetsDashWord(cfg, place, lone, given[optind..]))
      ensures ret != -1 ==> optind > old(optind) || (optind == old(optind) && 0 < |place| < |old(place)|)
      ensures ret == -1 ==> old(place) == "-" && '-' !in Letters(cfg) && (cfg.long.None? || lone)
                            && !Finished() && old(MeetsDashWord(cfg, place, lone, given[optind..]))
                            && old(ItemsWord(cfg, place, lone, given[optind..])) == []
    {
      hide NonOption, Taken, Skipped, Scan, Items, MeetsDash, MeetsDashWord, Step, ModeOf, ValidTable, ScanWord, ItemsWord, Letters;
      ghost var rest, o, a, args := place, optind, argv[..], given[optind..];
      ret := Letter(lone);
      assert args[1..] == given[o + 1..] && argv[o + 1..] == argv[o..][1..];
      ghost var out := Step(cfg, rest, lone, args[1..]);
      if ret == -1 {
        DashWord(cfg, rest, lone, args);
        assert args[0] == given[o] && argv[o..][0] == a[o];
        Unfinished(cfg, a, nonoptStart, nonoptEnd, o, given, ScanWord(cfg, rest, lone, args));
      } else {
        WordStep(cfg, a, nonoptStart, nonoptEnd, o, given, rest, lone, out);
        assert argv[..][optind..] == argv[optind..] && given[o..][out.adv..] == given[optind..];
      }
    }

    /** getopt_internal. Each call hands out the next option; the last one leaves argv reordered. */
    method Next() returns (ret: int)
      requires Valid()
      modifies argv, this`optind, this`place, this`nonoptStart, this`nonoptEnd, this`optarg, this`optopt, this`idx
      ensures ret != -1 ==> Valid() && old(Pending()) == [Item(ret, optarg)] + Pending() && DashAhead() == old(DashAhead())
      ensures ret != -1 ==> optind > old(optind) || (optind == old(optind) && 0 < |place| && (old(place) != "" ==> |place| < |old(place)|))
      ensures ret == -1 ==> (Finished() <==> !old(DashPending())) && (Finished() <==> !old(DashAhead()))
      ensures ret == -1 ==> old(Pending()) == []
      ensures old(place) != "" ==> argv[..] == old(argv[..])
    {
      hide NonOption, Taken, Skipped, Scan, Items, MeetsDash, MeetsDashWord, Step, ScanWord, ItemsWord;
      optarg := None;
      var lone := false;
      if place == "" {
        var more;
        more, ret := NextWord();
        if !more { return; }
        lone := EnterWord();
      }
      ret := Continue(lone);
    }

    method EnterWord() returns (lone: bool)
      requires Valid() && place == "" && optind < argv.Length && !NonOption(cfg, argv[optind]) && argv[optind] != "--"
      modifies this`place, this`nonoptEnd
      ensures InWord(lone) && (lone ==> '-' in Letters(cfg)) && (place == "-" ==> lone)
      ensures ItemsWord(cfg, place, lone, given[optind..]) == old(Pending())
      ensures MeetsDashWord(cfg, place, lone, given[optind..]) == old(DashAhead())
    {
      hide Taken, Skipped, Scan, Items, MeetsDash, MeetsDashWord;
      ghost var args := given[optind..];
      assert args[0] == argv[optind..][0];
      OptionWord(cfg, args);
      if nonoptStart != -1 && nonoptEnd == -1 {
        nonoptEnd := optind;
        EndSet(argv[..], nonoptStart, optind);
      }
      lone := argv[optind] == "-";
      place := Body(argv[optind]);
    }
  }

  lemma DashWord(c: Config, rest: string, lone: bool, args: seq<string>)
    requires args != [] && rest != "" && Step(c, rest, lone, args[1..]).dash
    ensures ScanWord(c, rest, lone, args).options == args[..1] + Scan(c, args[1..]).options
    ensures MeetsDashWord(c, rest, lone, args) && ItemsWord(c, rest, lone, args) == []
    ensures ScanWord(c, rest, lone, args).options != [] && ScanWord(c, rest, lone, args).options[0] == args[0]
  {}

  /** Stopping inside an option word cannot leave a finished vector: either optind is still short of
      the options found, or the first skipped non-option stands where an option belongs. */
  lemma Unfinished(c: Config, a: seq<string>, start: int, end: int, optind: int, given: seq<string>, ahead: Split)
    requires LayoutOk(a, start, end, optind) && |given| == |a| && optind < |a| && a[optind] == given[optind]
    requires start != -1 ==> end != -1 && NonOption(c, a[start]) && !NonOption(c, a[end])
    requires ahead.options != [] && ahead.options[0] == a[optind]
    requires Scan(c, given[1..]).options == Taken(a, start, end, optind) + ahead.options
    ensures var s := Scan(c, given[1..]);
            !(a == [given[0]] + s.options + s.operands && optind == 1 + |s.options|)
  {
    hide Scan, NonOption;
    var s := Scan(c, given[1..]);
    if start != -1 && a == [given[0]] + s.options + s.operands {
      assert s.options[start - 1] == (a[1..start] + a[end..optind] + ahead.options)[start - 1] == a[end];
      assert a[start] == s.options[start - 1];
    }
  }

  lemma ScanWordMerges(c: Config, rest: string, lone: bool, args: seq<string>)
    requires args != [] && rest != ""
    ensures var r := ScanWord(c, rest, lone, args); Merge(r.options, r.operands, args)
  {
    hide Merge, Scan, Width;
    var n := Width(c, rest, lone, args[1..]);
    var r := Scan(c, args[n..]);
    ScanMerges(c, args[n..]);
    MergePrefix(args[..n], r.options, r.operands, args[n..]);
    assert args[..n] + args[n..] == args;
  }

  /** The words of a partly scanned vector are those taken, those skipped and those ahead. */
  lemma LayoutWords(a: seq<string>, start: int, end: int, optind: int)
    requires LayoutOk(a, start, end, optind)
    ensures multiset(a) == multiset([a[0]]) + multiset(Taken(a, start, end, optind)) + multiset(Skipped(a, start, end, optind)) + multiset(a[optind..])
  {
    assert a == [a[0]] + a[1..optind] + a[optind..];
    if start != -1 { assert a[1..optind] == a[1..start] + a[start..optind]; }
    if end != -1 { assert a[start..optind] == a[start..end] + a[end..optind]; }
  }

  lemma KeepsWords(c: Config, a: seq<string>, start: int, end: int, optind: int, given: seq<string>, ahead: Split)
    requires LayoutOk(a, start, end, optind) && |given| == |a| && a[0] == given[0] && a[optind..] == given[optind..]
    requires Merge(ahead.options, ahead.operands, given[optind..])
    requires Scan(c, given[1..]) == Split(Taken(a, start, end, optind) + ahead.options, Skipped(a, start, end, optind) + ahead.operands)
    ensures multiset(a) == multiset(given)
  {
    hide Scan, Merge, Taken, Skipped;
    ScanMerges(c, given[1..]);
    var s := Scan(c, given[1..]);
    MergeCounts(s.options, s.operands, given[1..]);
    MergeCounts(ahead.options, ahead.operands, given[optind..]);
    LayoutWords(a, start, end, optind);
    assert given == [given[0]] + given[1..];
  }

  lemma FinishedKeepsWords(c: Config, a: seq<string>, given: seq<string>)
    requires given != [] && var s := Scan(c, given[1..]); a == [given[0]] + s.options + s.operands
    ensures multiset(a) == multiset(given)
  {
    hide Scan, Merge;
    ScanMerges(c, given[1..]);
    var s := Scan(c, given[1..]);
    MergeCounts(s.options, s.operands, given[1..]);
    assert given == [given[0]] + given[1..];
  }

  /** A whole run: call until -1. It ends finished exactly if none of the words of the vector, as it was
      given, that are read as options is a trap; with long options none is. */
  method ParseAll(g: Scanner) returns (items: seq<Item>, finished: bool)
    requires g.Valid() && g.place == "" && g.optind == 1
    modifies g, g.argv
    ensures finished <==> g.Finished()
    ensures finished <==> forall w :: w in OptionWords(g.cfg, g.given[1..]) ==> !Trap(g.cfg, w)
    ensures items == Items(g.cfg, g.given[1..])
    ensures g.cfg.long.Some? ==> finished
    ensures multiset(g.argv[..]) == multiset(g.given)
  {
    hide Taken, Skipped, Scan, Items, ScanWord, ItemsWord, MeetsDash, MeetsDashWord, NonOption;
    MeetsDashExactly(g.cfg, g.given[1..]);
    items := [];
    ghost var all := g.Pending();
    while true
      invariant g.Valid() && items + g.Pending() == all && g.DashAhead() == MeetsDash(g.cfg, g.given[1..])
      decreases g.argv.Length - g.optind, if g.place == "" then 1 else 0, |g.place|
    {
      g.WordsKept();
      finished := !(g.place == "-" && g.cfg.long.None? && '-' !in Letters(g.cfg));
      var ret := g.Next();
      if ret == -1 {
        if finished { FinishedKeepsWords(g.cfg, g.argv[..], g.given); }
        return;
      }
      items := items + [Item(ret, g.optarg)];
    }
  }

  /** The run over "x" and "-a-" without long options: 'a' is handed out, then the exit. */
  lemma DashExampleScan(c: Config)
    requires c == Config("a", None, true, false, false)
    ensures (exists w :: w in OptionWords(c, ["x", "-a-"]) && Trap(c, w)) && Items(c, ["x", "-a-"]) == [Item('a' as int, None)]
  {
    MeetsDashExactly(c, ["x", "-a-"]);
    var letters := "a";
    assert Find(letters, 'a') == Some(0) && '-' !in letters;
    assert NonOption(c, "x") && !NonOption(c, "-a-");
    assert ["x", "-a-"][1..] == ["-a-"] && ["-a-"][1..] == [];
    assert Body("-a-") == "a-" && "a-"[1..] == "-";
    assert Step(c, "-", false, []).dash;
    var o := Step(c, "a-", false, []);
    assert o.ret == 'a' as int && o.place == "-" && o.arg == None;
    assert DashIn(c, "a-", false, []) && ItemsOf(c, "-", false, []) == [];
    assert ItemsOf(c, "a-", false, []) == [Item('a' as int, None)];
  }

  method DashExample() returns (items: seq<Item>, finished: bool)
    ensures !finished && items == [Item('a' as int, None)]
  {
    hide Trap, OptionWords, Items, MeetsDash, Scan, NonOption, Taken, Skipped, Scanner.Shaped, Scanner.Ahead;
    var c := Config("a", None, true, false, false);
    var argv := new string[3];
    argv[0], argv[1], argv[2] := "p", "x", "-a-";
    var g := new Scanner(c, argv);
    assert g.given[1..] == ["x", "-a-"];
    DashExampleScan(c);
    items, finished := ParseAll(g);
  }
}

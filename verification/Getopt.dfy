/** The option scanner of Compat/getopt.h: what one option word means, what a whole argument vector
    means, and the resumable scanner that reorders argv while handing out one option per call. */
module Getopt {
  import opened Common

  datatype HasArg = NoArgument | RequiredArgument | OptionalArgument

  /** `flag` stands for the identity of the variable pointed to. */
  datatype LongOption = LongOption(name: string, hasArg: HasArg, flag: Option<nat>, val: int)

  /** What the caller passes on every call, with the environment's POSIXLY_CORRECT. */
  datatype Config = Config(options: string, long: Option<seq<LongOption>>, permute: bool, longOnly: bool, posixlyCorrect: bool)

  /** How non-options are treated. */
  datatype Mode = Permuting | Stopping | InOrder

  function ModeOf(c: Config): Mode {
    if c.options != "" && c.options[0] == '-' then InOrder
    else if c.permute && !c.posixlyCorrect && !(c.options != "" && c.options[0] == '+') then Permuting
    else Stopping
  }

  /** The option letters, without a leading '+' or '-'. */
  function Letters(c: Config): string {
    if c.options != "" && (c.options[0] == '+' || c.options[0] == '-') then c.options[1..] else c.options
  }

  /** -1 is the scanner's own end mark: an entry that returned it could not be told from the end. */
  predicate ValidTable(c: Config) {
    c.long.Some? ==> forall i :: 0 <= i < |c.long.value| ==> c.long.value[i].val != -1
  }

  const BADCH := '?' as int
  const INORDER := 1

  function BadArg(c: Config): int {
    var l := Letters(c);
    if l != "" && l[0] == ':' then ':' as int else '?' as int
  }

  function Find(s: string, ch: char): (k: Option<nat>)
    ensures k.None? <==> ch !in s
    ensures k.Some? ==> k.value < |s| && s[k.value] == ch && ch !in s[..k.value]
  {
    if s == "" then None
    else if s[0] == ch then Some(0)
    else match Find(s[1..], ch)
      case None => None
      case Some(k) =>
        assert s[..k + 1] == [s[0]] + s[1..][..k];
        Some(k + 1)
  }

  // ---------------------------------------------------------------- long options

  datatype Match = Unknown | Ambiguous | Found(i: nat)

  predicate Exact(name: string, o: LongOption) { o.name == name }

  /** An abbreviation; a single letter that is also a short option is not taken as one. */
  predicate Abbreviates(name: string, o: LongOption, shortToo: bool) {
    name <= o.name && !(shortToo && |name| == 1)
  }

  predicate SameMeaning(a: LongOption, b: LongOption) { a.hasArg == b.hasArg && a.flag == b.flag && a.val == b.val }

  /** What a name stands for in the table: the first exact match; failing that, the first option it
      abbreviates, unless it also abbreviates one with another meaning. */
  ghost predicate IsMatch(table: seq<LongOption>, name: string, shortToo: bool, m: Match) {
    if exists i :: 0 <= i < |table| && Exact(name, table[i]) then
      m.Found? && m.i < |table| && Exact(name, table[m.i]) && forall j :: 0 <= j < m.i ==> !Exact(name, table[j])
    else if forall i :: 0 <= i < |table| ==> !Abbreviates(name, table[i], shortToo) then
      m == Unknown
    else
      exists f: nat ::
        && f < |table| && Abbreviates(name, table[f], shortToo)
        && (forall j :: 0 <= j < f ==> !Abbreviates(name, table[j], shortToo))
        && m == if forall j :: 0 <= j < |table| && Abbreviates(name, table[j], shortToo) ==> SameMeaning(table[j], table[f])
                then Found(f) else Ambiguous
  }

  lemma MatchUnique(table: seq<LongOption>, name: string, shortToo: bool, m: Match, m': Match)
    requires IsMatch(table, name, shortToo, m) && IsMatch(table, name, shortToo, m')
    ensures m == m'
  {}

  /** The search loop of parse_long_options as a function of where it stands. */
  function Search(table: seq<LongOption>, name: string, shortToo: bool, i: nat, m: Match, ambiguous: bool): (r: Match)
    requires i <= |table| && (m.Found? ==> m.i < |table|) && !m.Ambiguous?
    ensures r.Found? ==> r.i < |table|
    decreases |table| - i
  {
    if i == |table| then (if ambiguous then Ambiguous else m)
    else if Exact(name, table[i]) then Found(i)
    else if !Abbreviates(name, table[i], shortToo) then Search(table, name, shortToo, i + 1, m, ambiguous)
    else if m.Unknown? then Search(table, name, shortToo, i + 1, Found(i), ambiguous)
    else Search(table, name, shortToo, i + 1, m, ambiguous || !SameMeaning(table[i], table[m.i]))
  }

  function Lookup(table: seq<LongOption>, name: string, shortToo: bool): Match {
    Search(table, name, shortToo, 0, Unknown, false)
  }

  /** Having passed `i` entries without an exact match, the loop knows the first abbreviation and
      whether all abbreviations so far agree with it. */
  ghost predicate Searched(table: seq<LongOption>, name: string, shortToo: bool, i: nat, m: Match, ambiguous: bool) {
    && i <= |table| && !m.Ambiguous?
    && (forall j :: 0 <= j < i ==> !Exact(name, table[j]))
    && (m.Unknown? ==> !ambiguous && forall j :: 0 <= j < i ==> !Abbreviates(name, table[j], shortToo))
    && (m.Found? ==>
          && m.i < i && Abbreviates(name, table[m.i], shortToo)
          && (forall j :: 0 <= j < m.i ==> !Abbreviates(name, table[j], shortToo))
          && (ambiguous <==> exists j :: 0 <= j < i && Abbreviates(name, table[j], shortToo) && !SameMeaning(table[j], table[m.i])))
  }

  lemma SearchedAll(table: seq<LongOption>, name: string, shortToo: bool, m: Match, ambiguous: bool)
    requires Searched(table, name, shortToo, |table|, m, ambiguous)
    ensures IsMatch(table, name, shortToo, if ambiguous then Ambiguous else m)
  {
    hide Exact, Abbreviates, SameMeaning;
  }

  lemma SearchedNext(table: seq<LongOption>, name: string, shortToo: bool, i: nat, m: Match, ambiguous: bool)
    requires Searched(table, name, shortToo, i, m, ambiguous) && i < |table| && !Exact(name, table[i])
    ensures !Abbreviates(name, table[i], shortToo) ==> Searched(table, name, shortToo, i + 1, m, ambiguous)
    ensures Abbreviates(name, table[i], shortToo) && m.Unknown? && SameMeaning(table[i], table[i]) ==>
      Searched(table, name, shortToo, i + 1, Found(i), ambiguous)
    ensures Abbreviates(name, table[i], shortToo) && m.Found? ==>
      Searched(table, name, shortToo, i + 1, m, ambiguous || !SameMeaning(table[i], table[m.i]))
  {
    hide Exact, Abbreviates, SameMeaning;
  }

  lemma ExactFound(table: seq<LongOption>, name: string, shortToo: bool, i: nat, m: Match, ambiguous: bool)
    requires Searched(table, name, shortToo, i, m, ambiguous) && i < |table| && Exact(name, table[i])
    ensures IsMatch(table, name, shortToo, Found(i))
  {
    hide Exact, Abbreviates, SameMeaning;
  }

  lemma {:induction false} SearchFinds(table: seq<LongOption>, name: string, shortToo: bool, i: nat, m: Match, ambiguous: bool)
    requires Searched(table, name, shortToo, i, m, ambiguous)
    ensures IsMatch(table, name, shortToo, Search(table, name, shortToo, i, m, ambiguous))
    decreases |table| - i
  {
    assert i < |table| ==> SameMeaning(table[i], table[i]);
    hide IsMatch, Exact, Abbreviates, SameMeaning;
    if i == |table| {
      SearchedAll(table, name, shortToo, m, ambiguous);
    } else if Exact(name, table[i]) {
      ExactFound(table, name, shortToo, i, m, ambiguous);
    } else {
      SearchedNext(table, name, shortToo, i, m, ambiguous);
      if !Abbreviates(name, table[i], shortToo) {
        SearchFinds(table, name, shortToo, i + 1, m, ambiguous);
      } else if m.Unknown? {
        SearchFinds(table, name, shortToo, i + 1, Found(i), ambiguous);
      } else {
        SearchFinds(table, name, shortToo, i + 1, m, ambiguous || !SameMeaning(table[i], table[m.i]));
      }
    }
  }

  lemma LookupFinds(table: seq<LongOption>, name: string, shortToo: bool)
    ensures IsMatch(table, name, shortToo, Lookup(table, name, shortToo))
  {
    SearchFinds(table, name, shortToo, 0, Unknown, false);
  }

  /** The loop itself. */
  method FindLong(table: seq<LongOption>, name: string, shortToo: bool) returns (m: Match)
    ensures m == Lookup(table, name, shortToo) && IsMatch(table, name, shortToo, m)
  {
    var found, ambiguous := -1, false;
    var i := 0;
    LookupFinds(table, name, shortToo);
    while i < |table|
      invariant 0 <= i <= |table| && -1 <= found < i
      invariant Lookup(table, name, shortToo)
             == Search(table, name, shortToo, i, if found == -1 then Unknown else Found(found), ambiguous)
    {
      if !(name <= table[i].name) {
        i := i + 1;
        continue;
      }
      if |table[i].name| == |name| {
        assert Exact(name, table[i]);
        found, ambiguous := i, false;
        return Found(found);
      }
      if shortToo && |name| == 1 {
        i := i + 1;
        continue;
      }
      if found == -1 {
        found := i;
      } else if !SameMeaning(table[i], table[found]) {
        ambiguous := true;
      }
      i := i + 1;
    }
    m := if ambiguous then Ambiguous else if found == -1 then Unknown else Found(found);
  }

  // ---------------------------------------------------------------- one option

  /** What one step does: the value returned, how many words of argv it is done with, what is left
      of the current word, and the values left in optarg, optopt and *idx. `dash` marks the one
      exit that returns -1 in the middle of a word. */
  datatype Outcome = Outcome(ret: int, adv: nat, place: string, arg: Option<string>,
                             optopt: Option<int>, idx: Option<nat>, dash: bool)

  function Returned(ret: int, adv: nat, place: string, arg: Option<string>): Outcome {
    Outcome(ret, adv, place, arg, None, None, false)
  }

  function Failed(ret: int, adv: nat, place: string, optopt: int): Outcome {
    Outcome(ret, adv, place, None, Some(optopt), None, false)
  }

  /** parse_long_options on the text `cur`, with `next` the words after the one that holds it.
      None: not a long option after all, try it as a short one. */
  function LongStep(c: Config, table: seq<LongOption>, cur: string, shortToo: bool, next: seq<string>): (o: Option<Outcome>)
    ensures o.Some? ==> 1 <= o.value.adv <= 1 + |next| && o.value.place == "" && !o.value.dash
    ensures o.None? ==> shortToo
    ensures o.Some? && (forall i :: 0 <= i < |table| ==> table[i].val != -1) ==> o.value.ret != -1
  {
    var eq := Find(cur, '=');
    var name := if eq.Some? then cur[..eq.value] else cur;
    var given: Option<string> := if eq.Some? then Some(cur[eq.value + 1..]) else None;
    match Lookup(table, name, shortToo)
    case Ambiguous => Some(Failed(BADCH, 1, "", 0))
    case Unknown => if shortToo then None else Some(Failed(BADCH, 1, "", 0))
    case Found(i) =>
      var o := table[i];
      var complaint := if o.flag.None? then o.val else 0;
      var ret := if o.flag.None? then o.val else 0;
      if o.hasArg.NoArgument? && given.Some? then Some(Failed(BadArg(c), 1, "", complaint))
      else if o.hasArg.RequiredArgument? && given.None? then
        if next == [] then Some(Failed(BadArg(c), 1, "", complaint))
        else Some(Outcome(ret, 2, "", Some(next[0]), None, Some(i), false))
      else Some(Outcome(ret, 1, "", given, None, Some(i), false))
  }

  /** getopt_internal from the point where `rest` is the unread part of an option word; `lone` when
      that part is the whole word "-". */
  function Step(c: Config, rest: string, lone: bool, next: seq<string>): (o: Outcome)
    requires rest != ""
    ensures o.adv <= 1 + |next|
    ensures o.place != "" ==> o.adv == 0 && |o.place| < |rest|
    ensures o.place == "" && !o.dash ==> o.adv >= 1
    ensures o.dash ==> o.ret == -1 && o.adv == 0 && o.place == "" && rest == "-" && '-' !in Letters(c) && (c.long.None? || lone)
    ensures o.ret == -1 && ValidTable(c) ==> o.dash
  {
    if c.long.Some? && !lone && (rest[0] == '-' || c.longOnly) then
      var shortToo := rest[0] != '-' && rest[0] != ':' && rest[0] in Letters(c);
      match LongStep(c, c.long.value, if rest[0] == '-' then rest[1..] else rest, shortToo, next)
      case Some(o) => o
      case None => ShortStep(c, rest, next)
    else ShortStep(c, rest, next)
  }

  function ShortStep(c: Config, rest: string, next: seq<string>): (o: Outcome)
    requires rest != ""
    ensures o.adv <= 1 + |next|
    ensures o.place != "" ==> o.adv == 0 && |o.place| < |rest|
    ensures o.place == "" && !o.dash ==> o.adv >= 1
    ensures o.dash <==> rest == "-" && '-' !in Letters(c)
    ensures o.dash ==> o.ret == -1 && o.adv == 0 && o.place == ""
    ensures o.ret == -1 && ValidTable(c) ==> o.dash
  {
    var letters, ch, more := Letters(c), rest[0], rest[1..];
    var done := if more == "" then 1 else 0;
    var k := Find(letters, ch);
    if ch == ':' || (ch == '-' && more != "") || k.None? then
      if ch == '-' && more == "" then Outcome(-1, 0, "", None, None, None, true)
      else Failed(BADCH, done, more, ch as int)
    else if c.long.Some? && ch == 'W' && Follows(letters, k.value, ';') then
      if more != "" then LongStep(c, c.long.value, more, false, next).value
      else if next == [] then Failed(BadArg(c), 1, "", ch as int)
      else
        var o := LongStep(c, c.long.value, next[0], false, next[1..]).value;
        o.(adv := o.adv + 1)
    else if !Follows(letters, k.value, ':') then Returned(ch as int, done, more, None)
    else if more != "" then Returned(ch as int, 1, "", Some(more))
    else if Follows(letters, k.value + 1, ':') then Returned(ch as int, 1, "", None)
    else if next == [] then Failed(BadArg(c), 1, "", ch as int)
    else Returned(ch as int, 2, "", Some(next[0]))
  }

  predicate Follows(s: string, k: nat, ch: char) { k + 1 < |s| && s[k + 1] == ch }

  // ---------------------------------------------------------------- a whole argument vector

  /** Not an option word. */
  predicate NonOption(c: Config, w: string) {
    w == "" || w[0] != '-' || (w == "-" && '-' !in Letters(c))
  }

  /** How many words an option word takes, its own and those of its arguments, when `rest` of it is
      still to be read. */
  function Width(c: Config, rest: string, lone: bool, next: seq<string>): (n: nat)
    requires rest != ""
    ensures 1 <= n <= 1 + |next|
    decreases |rest|
  {
    var o := Step(c, rest, lone, next);
    if o.place != "" then Width(c, o.place, false, next) else if o.dash then 1 else o.adv
  }

  datatype Item = Item(ret: int, arg: Option<string>)

  /** The options in an option word, from `rest` on. */
  function ItemsOf(c: Config, rest: string, lone: bool, next: seq<string>): seq<Item>
    requires rest != ""
    decreases |rest|
  {
    var o := Step(c, rest, lone, next);
    if o.dash then []
    else [Item(o.ret, o.arg)] + (if o.place != "" then ItemsOf(c, o.place, false, next) else [])
  }

  /** Reading the option word on from `rest` comes to the exit that returns -1 in mid-word. */
  predicate DashIn(c: Config, rest: string, lone: bool, next: seq<string>)
    requires rest != ""
    decreases |rest|
  {
    var o := Step(c, rest, lone, next);
    o.dash || (o.place != "" && DashIn(c, o.place, false, next))
  }

  /** What is left to read of a fresh option word. */
  function Body(w: string): (rest: string)
    requires |w| >= 2 || w == "-"
    ensures rest != ""
  {
    if w == "-" then w else w[1..]
  }

  /** Options with their arguments (and "--") on one side, the rest on the other, each in order. */
  datatype Split = Split(options: seq<string>, operands: seq<string>)

  /** The meaning of an argument vector, in one pass over the words as they were given. */
  function Scan(c: Config, args: seq<string>): Split
    decreases |args|
  {
    if args == [] then Split([], [])
    else if NonOption(c, args[0]) then
      match ModeOf(c)
      case Stopping => Split([], args)
      case Permuting =>
        var r := Scan(c, args[1..]);
        Split(r.options, [args[0]] + r.operands)
      case InOrder =>
        var r := Scan(c, args[1..]);
        Split([args[0]] + r.options, r.operands)
    else if args[0] == "--" then Split(["--"], args[1..])
    else ScanWord(c, Body(args[0]), args[0] == "-", args)
  }

  /** The same from inside the option word `args[0]`. */
  function ScanWord(c: Config, rest: string, lone: bool, args: seq<string>): Split
    requires args != [] && rest != ""
    decreases |args|, 0
  {
    var n := Width(c, rest, lone, args[1..]);
    var r := Scan(c, args[n..]);
    Split(args[..n] + r.options, r.operands)
  }

  /** The options a caller is handed, in order: all of them, or those before the exit in mid-word. */
  function Items(c: Config, args: seq<string>): seq<Item>
    decreases |args|
  {
    if args == [] then []
    else if NonOption(c, args[0]) then
      match ModeOf(c)
      case Stopping => []
      case Permuting => Items(c, args[1..])
      case InOrder => [Item(INORDER, Some(args[0]))] + Items(c, args[1..])
    else if args[0] == "--" then []
    else ItemsWord(c, Body(args[0]), args[0] == "-", args)
  }

  function ItemsWord(c: Config, rest: string, lone: bool, args: seq<string>): seq<Item>
    requires args != [] && rest != ""
    decreases |args|, 0
  {
    ItemsOf(c, rest, lone, args[1..])
    + (if DashIn(c, rest, lone, args[1..]) then [] else Items(c, args[Width(c, rest, lone, args[1..])..]))
  }

  /** `args` is made of `a` and `b`, neither reordered, nothing lost, nothing added. */
  ghost predicate Merge<T>(a: seq<T>, b: seq<T>, args: seq<T>)
    decreases |args|
  {
    if args == [] then a == [] && b == []
    else || (a != [] && a[0] == args[0] && Merge(a[1..], b, args[1..]))
         || (b != [] && b[0] == args[0] && Merge(a, b[1..], args[1..]))
  }

  lemma {:induction false} MergePrefix<T>(p: seq<T>, a: seq<T>, b: seq<T>, args: seq<T>)
    requires Merge(a, b, args)
    ensures Merge(p + a, b, p + args)
    decreases |p|
  {
    if p == [] {
      assert p + a == a && p + args == args;
    } else {
      MergePrefix(p[1..], a, b, args);
      assert (p + a)[1..] == p[1..] + a && (p + args)[1..] == p[1..] + args;
    }
  }

  lemma {:induction false} MergeRight<T>(b: seq<T>)
    ensures Merge([], b, b)
    decreases |b|
  {
    if b != [] { MergeRight(b[1..]); }
  }

  lemma {:induction false} MergeCounts<T>(a: seq<T>, b: seq<T>, args: seq<T>)
    requires Merge(a, b, args)
    ensures multiset(args) == multiset(a + b) && |args| == |a| + |b|
    decreases |args|
  {
    if args != [] {
      assert args == [args[0]] + args[1..];
      if a != [] && a[0] == args[0] && Merge(a[1..], b, args[1..]) {
        MergeCounts(a[1..], b, args[1..]);
        assert a + b == [a[0]] + (a[1..] + b);
      } else {
        MergeCounts(a, b[1..], args[1..]);
        assert multiset(a + b) == multiset(a) + multiset(b);
        assert b == [b[0]] + b[1..];
        assert multiset(a + b[1..]) == multiset(a) + multiset(b[1..]);
      }
    }
  }

  lemma MergeCons<T>(x: T, a: seq<T>, b: seq<T>, args: seq<T>)
    requires Merge(a, b, args)
    ensures Merge([x] + a, b, [x] + args) && Merge(a, [x] + b, [x] + args)
  {
    assert ([x] + a)[1..] == a && ([x] + b)[1..] == b && ([x] + args)[1..] == args;
  }

  /** The split keeps every word and both orders. */
  lemma {:induction false} ScanMerges(c: Config, args: seq<string>)
    ensures Merge(Scan(c, args).options, Scan(c, args).operands, args)
    decreases |args|
  {
    if args == [] {
    } else if NonOption(c, args[0]) {
      NonOptionMerges(c, args);
    } else if args[0] == "--" {
      hide Merge;
      MergeRight(args[1..]);
      MergePrefix(["--"], [], args[1..], args[1..]);
      assert ["--"] + args[1..] == args && ["--"] + [] == ["--"];
    } else {
      hide Merge, NonOption;
      var n := Width(c, Body(args[0]), args[0] == "-", args[1..]);
      var r := Scan(c, args[n..]);
      ScanMerges(c, args[n..]);
      MergePrefix(args[..n], r.options, r.operands, args[n..]);
      assert args[..n] + args[n..] == args;
    }
  }

  lemma {:induction false} NonOptionMerges(c: Config, args: seq<string>)
    requires args != [] && NonOption(c, args[0])
    ensures Merge(Scan(c, args).options, Scan(c, args).operands, args)
    decreases |args|, 0
  {
    hide Merge, NonOption;
    if ModeOf(c).Stopping? {
      MergeRight(args);
    } else {
      var r := Scan(c, args[1..]);
      ScanMerges(c, args[1..]);
      MergeCons(args[0], r.options, r.operands, args[1..]);
      assert [args[0]] + args[1..] == args;
    }
  }

  /** When permuting, operands are non-options, except behind a "--". */
  lemma {:induction false} OperandsAreNonOptions(c: Config, args: seq<string>, i: nat)
    requires ModeOf(c) == Permuting && i < |Scan(c, args).operands|
    ensures NonOption(c, Scan(c, args).operands[i]) || "--" in Scan(c, args).options
    decreases |args|
  {
    if NonOption(c, args[0]) {
      if i > 0 { OperandsAreNonOptions(c, args[1..], i - 1); }
    } else if args[0] != "--" {
      var n := Width(c, Body(args[0]), args[0] == "-", args[1..]);
      OperandsAreNonOptions(c, args[n..], i);
    }
  }

  // ---------------------------------------------------------------- the exit that leaves a scan unfinished

  /** Scanning the vector comes to that exit. */
  predicate MeetsDash(c: Config, args: seq<string>)
    decreases |args|
  {
    if args == [] then false
    else if NonOption(c, args[0]) then ModeOf(c) != Stopping && MeetsDash(c, args[1..])
    else if args[0] == "--" then false
    else MeetsDashWord(c, Body(args[0]), args[0] == "-", args)
  }

  predicate MeetsDashWord(c: Config, rest: string, lone: bool, args: seq<string>)
    requires args != [] && rest != ""
    decreases |args|, 0
  {
    DashIn(c, rest, lone, args[1..]) || MeetsDash(c, args[Width(c, rest, lone, args[1..])..])
  }

  predicate TakesArgument(c: Config, ch: char) {
    ch != ':' && var k := Find(Letters(c), ch); k.Some? && Follows(Letters(c), k.value, ':')
  }

  /** The text of an option word ends in a '-' that is not an option letter, and no letter before it
      takes the rest of the word as its argument. */
  predicate BareDashLast(c: Config, text: string) {
    && text != "" && text[|text| - 1] == '-' && '-' !in Letters(c)
    && forall i :: 0 <= i < |text| - 1 ==> !TakesArgument(c, text[i])
  }

  /** Which words have the exit in them can be read off their letters; with long options none has. */
  lemma {:induction false} DashInExactly(c: Config, rest: string, lone: bool, next: seq<string>)
    requires rest != "" && (lone ==> rest == "-" && '-' in Letters(c))
    ensures DashIn(c, rest, lone, next) <==> c.long.None? && BareDashLast(c, rest)
    decreases |rest|
  {
    var o := Step(c, rest, lone, next);
    if o.place != "" {
      assert o.place == rest[1..];
      DashInExactly(c, o.place, false, next);
      if !TakesArgument(c, rest[0]) { BareDashTail(c, rest); }
    }
  }

  lemma BareDashTail(c: Config, rest: string)
    requires |rest| > 1 && !TakesArgument(c, rest[0])
    ensures BareDashLast(c, rest) <==> BareDashLast(c, rest[1..])
  {
    hide TakesArgument, Letters;
    if BareDashLast(c, rest[1..]) {
      forall i | 0 <= i < |rest| - 1 ensures !TakesArgument(c, rest[i]) {
        if i > 0 { assert rest[i] == rest[1..][i - 1]; }
      }
    } else if BareDashLast(c, rest) {
      forall i | 0 <= i < |rest[1..]| - 1 ensures !TakesArgument(c, rest[1..][i]) { assert rest[1..][i] == rest[i + 1]; }
    }
  }

  /** An option word that the scan does not get past: without long options, one with a bare '-' at its end. */
  predicate Trap(c: Config, w: string) { c.long.None? && (|w| >= 2 || w == "-") && BareDashLast(c, Body(w)) }

  /** The words that are read as options, not skipped and not taken as arguments, up to the first trap. */
  function OptionWords(c: Config, args: seq<string>): seq<string>
    decreases |args|
  {
    if args == [] then []
    else if NonOption(c, args[0]) then (if ModeOf(c) == Stopping then [] else OptionWords(c, args[1..]))
    else if args[0] == "--" then []
    else if Trap(c, args[0]) then [args[0]]
    else [args[0]] + OptionWords(c, args[Width(c, Body(args[0]), args[0] == "-", args[1..])..])
  }

  /** The scan comes to the exit exactly if one of the words it reads as options is a trap. */
  lemma {:induction false} MeetsDashExactly(c: Config, args: seq<string>)
    ensures MeetsDash(c, args) <==> exists w :: w in OptionWords(c, args) && Trap(c, w)
    decreases |args|
  {
    hide Step, Width, DashIn, BareDashLast;
    if args != [] {
      if NonOption(c, args[0]) {
        MeetsDashExactly(c, args[1..]);
      } else if args[0] != "--" {
        DashInExactly(c, Body(args[0]), args[0] == "-", args[1..]);
        MeetsDashExactly(c, args[Width(c, Body(args[0]), args[0] == "-", args[1..])..]);
        if Trap(c, args[0]) { assert args[0] in OptionWords(c, args); }
      }
    }
  }
}

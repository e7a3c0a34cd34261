/** What option words mean, read off the option string, the table of long options and the text itself. */
module GetoptMeaning {
  import opened Common
  import opened Getopt

  // ---------------------------------------------------------------- the option string

  /** `letters` is the option string without the '+' or '-' in front that sets the mode. */
  predicate AreLetters(c: Config, sign: string, letters: string) {
    && c.options == sign + letters && (sign == "" || sign == "+" || sign == "-")
    && (sign == "" ==> letters == "" || (letters[0] != '+' && letters[0] != '-'))
  }

  lemma LettersMeaning(c: Config, sign: string, letters: string)
    requires AreLetters(c, sign, letters)
    ensures Letters(c) == letters
    ensures BadArg(c) == if letters != "" && letters[0] == ':' then ':' as int else '?' as int
    ensures ModeOf(c) == if sign == "-" then InOrder else if sign == "+" || c.posixlyCorrect || !c.permute then Stopping else Permuting
  {
    if sign != "" {
      assert c.options[0] == sign[0] && c.options[1..] == letters;
    } else {
      assert c.options == letters;
    }
  }

  /** The answer to a missing argument, or to one that is not allowed. */
  function Complaint(letters: string): int { if letters != "" && letters[0] == ':' then ':' as int else '?' as int }

  lemma FirstAt(s: string, k: nat, ch: char)
    requires k < |s| && s[k] == ch && ch !in s[..k]
    ensures Find(s, ch) == Some(k)
  {}

  // ---------------------------------------------------------------- long options

  lemma FirstEquals(name: string, v: string)
    requires '=' !in name
    ensures Find(name, '=') == None
    ensures var text := name + "=" + v; Find(text, '=') == Some(|name|) && text[..|name|] == name && text[|name| + 1..] == v
  {
    var text := name + "=" + v;
    assert text[|name|] == '=' && text[..|name|] == name;
    FirstAt(text, |name|, '=');
  }

  lemma LookupIs(table: seq<LongOption>, name: string, shortToo: bool, m: Match)
    requires IsMatch(table, name, shortToo, m)
    ensures Lookup(table, name, shortToo) == m
  {
    LookupFinds(table, name, shortToo);
    MatchUnique(table, name, shortToo, m, Lookup(table, name, shortToo));
  }

  /** What a name stands for, in terms of the fields of the options: an exact match wins, the first one; else
      an abbreviation stands for the first option it begins, and is ambiguous if it also begins one that differs
      in argument, flag or value. A single letter that is a short option too abbreviates nothing. */
  lemma LookupMeaning(table: seq<LongOption>, name: string, shortToo: bool, i: nat)
    requires i < |table|
    ensures table[i].name == name && (forall j :: 0 <= j < i ==> table[j].name != name) ==> Lookup(table, name, shortToo) == Found(i)
    ensures
      && (forall j :: 0 <= j < |table| ==> table[j].name != name) && !(shortToo && |name| == 1)
      && name <= table[i].name && (forall j :: 0 <= j < i ==> !(name <= table[j].name)) ==>
        Lookup(table, name, shortToo) ==
          if forall j :: i <= j < |table| && name <= table[j].name ==>
               table[j].hasArg == table[i].hasArg && table[j].flag == table[i].flag && table[j].val == table[i].val
          then Found(i) else Ambiguous
    ensures (forall j :: 0 <= j < |table| ==> table[j].name != name) && shortToo && |name| == 1 ==> Lookup(table, name, shortToo) == Unknown
  {
    LookupFinds(table, name, shortToo);
  }

  lemma LookupNothing(table: seq<LongOption>, name: string, shortToo: bool)
    ensures (forall j :: 0 <= j < |table| ==> !(name <= table[j].name)) ==> Lookup(table, name, shortToo) == Unknown
  {
    LookupFinds(table, name, shortToo);
  }

  /** The value a long option returns: its own, or 0 if it has a flag to set. */
  function Value(o: LongOption): int { if o.flag.None? then o.val else 0 }

  /** "name=v": the argument is `v`, unless the option takes none. */
  lemma LongWithValue(c: Config, sign: string, letters: string, table: seq<LongOption>, name: string, v: string, shortToo: bool, next: seq<string>, i: nat)
    requires AreLetters(c, sign, letters) && '=' !in name && i < |table| && IsMatch(table, name, shortToo, Found(i))
    ensures LongStep(c, table, name + "=" + v, shortToo, next) ==
      Some(if table[i].hasArg.NoArgument? then Outcome(Complaint(letters), 1, "", None, Some(Value(table[i])), None, false)
           else Outcome(Value(table[i]), 1, "", Some(v), None, Some(i), false))
  {
    LettersMeaning(c, sign, letters);
    FirstEquals(name, v);
    LookupIs(table, name, shortToo, Found(i));
  }

  /** A bare name: a required argument is the next word. */
  lemma LongAlone(c: Config, sign: string, letters: string, table: seq<LongOption>, name: string, shortToo: bool, next: seq<string>, i: nat)
    requires AreLetters(c, sign, letters) && '=' !in name && i < |table| && IsMatch(table, name, shortToo, Found(i))
    ensures LongStep(c, table, name, shortToo, next) ==
      Some(if !table[i].hasArg.RequiredArgument? then Outcome(Value(table[i]), 1, "", None, None, Some(i), false)
           else if next == [] then Outcome(Complaint(letters), 1, "", None, Some(Value(table[i])), None, false)
           else Outcome(Value(table[i]), 2, "", Some(next[0]), None, Some(i), false))
  {
    LettersMeaning(c, sign, letters);
    FirstEquals(name, "");
    LookupIs(table, name, shortToo, Found(i));
  }

  /** A name that abbreviates options of different meaning, or none, is an error, with or without an argument;
      one that could as well be a letter is then tried as such. */
  lemma LongUnmatched(c: Config, table: seq<LongOption>, name: string, v: string, shortToo: bool, next: seq<string>)
    requires '=' !in name && (IsMatch(table, name, shortToo, Unknown) || IsMatch(table, name, shortToo, Ambiguous))
    ensures var r := if shortToo && IsMatch(table, name, shortToo, Unknown) then None else Some(Outcome('?' as int, 1, "", None, Some(0), None, false));
            LongStep(c, table, name + "=" + v, shortToo, next) == r && LongStep(c, table, name, shortToo, next) == r
  {
    FirstEquals(name, v);
    var m := if IsMatch(table, name, shortToo, Unknown) then Unknown else Ambiguous;
    LookupIs(table, name, shortToo, m);
    if m.Ambiguous? && IsMatch(table, name, shortToo, Unknown) { MatchUnique(table, name, shortToo, m, Unknown); }
  }

  /** Every text is a name, or a name, '=' and a value. */
  lemma TextSplits(text: string) returns (name: string, v: string)
    ensures '=' !in name && (text == name || text == name + "=" + v)
  {
    var k := Find(text, '=');
    if k.None? {
      name, v := text, "";
    } else {
      name, v := text[..k.value], text[k.value + 1..];
      assert text == name + "=" + v;
    }
  }

  /** A word "--text", with long options given, is the long option `text`. */
  lemma LongWord(c: Config, text: string, next: seq<string>)
    requires c.long.Some?
    ensures Body("--" + text) == "-" + text
    ensures Some(Step(c, "-" + text, false, next)) == LongStep(c, c.long.value, text, false, next)
  {
    assert ("--" + text)[1..] == "-" + text && ("-" + text)[1..] == text;
  }

  /** With getopt_long_only a word "-text" is tried as a long option first. */
  lemma LongOnlyWord(c: Config, sign: string, letters: string, text: string, next: seq<string>)
    requires AreLetters(c, sign, letters) && c.long.Some? && c.longOnly && text != "" && text[0] != '-'
    ensures var r := LongStep(c, c.long.value, text, text[0] != ':' && text[0] in letters, next);
            Step(c, text, false, next) == if r.Some? then r.value else ShortStep(c, text, next)
  {
    LettersMeaning(c, sign, letters);
  }

  // ---------------------------------------------------------------- letters

  /** The option string lists `ch`, first between `pre` and `post`. */
  predicate Lists(c: Config, sign: string, pre: string, ch: char, post: string) {
    AreLetters(c, sign, pre + [ch] + post) && ch !in pre && ch != ':'
  }

  lemma FoundAt(letters: string, pre: string, ch: char, post: string)
    requires letters == pre + [ch] + post && ch !in pre
    ensures Find(letters, ch) == Some(|pre|)
    ensures Follows(letters, |pre|, ':') <==> ":" <= post
    ensures Follows(letters, |pre|, ';') <==> ";" <= post
    ensures Follows(letters, |pre|, ':') ==> (Follows(letters, |pre| + 1, ':') <==> "::" <= post)
  {
    assert letters[|pre|] == ch && letters[..|pre|] == pre;
    FirstAt(letters, |pre|, ch);
    assert post == letters[|pre| + 1..];
  }

  /** An option letter with `more` of its word behind it. Without ':' it takes no argument, and the rest of the
      word is read on. With ':' its argument is the rest of the word, or else the next word, which must be there;
      with "::" only the rest of the word can be. "W;" makes the argument a long option. */
  lemma LetterMeaning(c: Config, sign: string, pre: string, ch: char, post: string, more: string, next: seq<string>)
    requires Lists(c, sign, pre, ch, post) && (ch == '-' ==> more == "")
    requires !(c.long.Some? && ch == 'W' && ";" <= post)
    ensures var r, missing := ch as int, Complaint(pre + [ch] + post);
      ShortStep(c, [ch] + more, next) ==
        if !(":" <= post) then Outcome(r, if more == "" then 1 else 0, more, None, None, None, false)
        else if more != "" then Outcome(r, 1, "", Some(more), None, None, false)
        else if "::" <= post then Outcome(r, 1, "", None, None, None, false)
        else if next == [] then Outcome(missing, 1, "", None, Some(r), None, false)
        else Outcome(r, 2, "", Some(next[0]), None, None, false)
  {
    LettersMeaning(c, sign, pre + [ch] + post);
    FoundAt(pre + [ch] + post, pre, ch, post);
    assert ([ch] + more)[1..] == more;
  }

  lemma LetterW(c: Config, sign: string, pre: string, post: string, more: string, next: seq<string>)
    requires Lists(c, sign, pre, 'W', post) && c.long.Some? && ";" <= post
    ensures var o := ShortStep(c, "W" + more, next);
      if more != "" then Some(o) == LongStep(c, c.long.value, more, false, next)
      else if next == [] then o == Outcome(Complaint(pre + "W" + post), 1, "", None, Some('W' as int), None, false)
      else o.adv >= 1 && Some(o.(adv := o.adv - 1)) == LongStep(c, c.long.value, next[0], false, next[1..])
  {
    hide LongStep, Find, Follows, BadArg, Letters, ModeOf;
    LettersMeaning(c, sign, pre + "W" + post);
    FoundAt(pre + "W" + post, pre, 'W', post);
    assert ("W" + more)[1..] == more && ("W" + more)[0] == 'W';
  }

  /** A character that is no option letter, ':' always being none and '-' only standing alone, is an error,
      after which the rest of the word is read on; but for a '-' at the end of the word, which ends the scan. */
  lemma UnlistedLetter(c: Config, sign: string, letters: string, ch: char, more: string, next: seq<string>)
    requires AreLetters(c, sign, letters) && (ch !in letters || ch == ':' || (ch == '-' && more != ""))
    ensures ShortStep(c, [ch] + more, next) ==
      if ch == '-' && more == "" then Outcome(-1, 0, "", None, None, None, true)
      else Outcome('?' as int, if more == "" then 1 else 0, more, None, Some(ch as int), None, false)
  {
    LettersMeaning(c, sign, letters);
    assert ([ch] + more)[1..] == more;
  }

  /** A letter that takes no argument. */
  predicate IsFlag(c: Config, ch: char) {
    && ch in Letters(c) && ch != ':' && ch != '-' && !TakesArgument(c, ch)
    && !(c.long.Some? && (c.longOnly || (ch == 'W' && Follows(Letters(c), Find(Letters(c), ch).value, ';'))))
  }

  lemma FlagStep(c: Config, ch: char, more: string, next: seq<string>)
    requires IsFlag(c, ch) && more != ""
    ensures Step(c, [ch] + more, false, next) == Returned(ch as int, 0, more, None)
  {
    hide LongStep, Find, Follows, Letters;
    assert ([ch] + more)[1..] == more && ([ch] + more)[0] == ch;
  }

  function OneByOne(flags: string): seq<Item> {
    if flags == "" then [] else [Item(flags[0] as int, None)] + OneByOne(flags[1..])
  }

  /** Flags that share a word are options one by one, and the rest of the word follows. */
  lemma {:induction false} ClusterMeaning(c: Config, flags: string, rest: string, next: seq<string>)
    requires rest != "" && forall i :: 0 <= i < |flags| ==> IsFlag(c, flags[i])
    ensures ItemsOf(c, flags + rest, false, next) == OneByOne(flags) + ItemsOf(c, rest, false, next)
    ensures Width(c, flags + rest, false, next) == Width(c, rest, false, next)
    decreases |flags|
  {
    hide Step, IsFlag;
    if flags == "" {
      assert flags + rest == rest;
    } else {
      var more := flags[1..] + rest;
      assert flags + rest == [flags[0]] + more;
      FlagStep(c, flags[0], more, next);
      ClusterMeaning(c, flags[1..], rest, next);
      ClusterOne(c, flags[0], more, next);
    }
  }

  lemma ClusterOne(c: Config, ch: char, more: string, next: seq<string>)
    requires more != "" && Step(c, [ch] + more, false, next) == Returned(ch as int, 0, more, None)
    ensures ItemsOf(c, [ch] + more, false, next) == [Item(ch as int, None)] + ItemsOf(c, more, false, next)
    ensures Width(c, [ch] + more, false, next) == Width(c, more, false, next)
  {
    hide Step;
  }

  // ---------------------------------------------------------------- non-options

  /** Which words are options: those of two characters or more that begin with '-', and "-" if it is a letter. */
  lemma OptionWordMeaning(c: Config, sign: string, letters: string, w: string)
    requires AreLetters(c, sign, letters)
    ensures NonOption(c, w) <==> !("-" <= w) || (w == "-" && '-' !in letters)
  {
    LettersMeaning(c, sign, letters);
  }

  /** A non-option in front: with '-' in the option string it is itself an option, of value 1; with '+', or
      POSIXLY_CORRECT, or without permutation it ends the options; else it goes behind them. */
  lemma NonOptionMeaning(c: Config, sign: string, letters: string, w: string, args: seq<string>)
    requires AreLetters(c, sign, letters) && (!("-" <= w) || (w == "-" && '-' !in letters))
    ensures var s, r := Scan(c, [w] + args), Scan(c, args);
      && s == (if sign == "-" then Split([w] + r.options, r.operands)
               else if sign == "+" || c.posixlyCorrect || !c.permute then Split([], [w] + args)
               else Split(r.options, [w] + r.operands))
      && Items(c, [w] + args) == (if sign == "-" then [Item(1, Some(w))] + Items(c, args)
                                  else if sign == "+" || c.posixlyCorrect || !c.permute then []
                                  else Items(c, args))
  {
    LettersMeaning(c, sign, letters);
    assert ([w] + args)[1..] == args;
  }

  /** "--" ends the options, and everything behind it is an operand. */
  lemma DashDashMeaning(c: Config, args: seq<string>)
    ensures Scan(c, ["--"] + args) == Split(["--"], args) && Items(c, ["--"] + args) == []
  {
    assert (["--"] + args)[1..] == args;
  }
}

// The grammar of configuration texts is exactly what the parser accepts.
module ChannelGrammar {
  import opened ChannelConfig

  // ---------- Splitting and joining ----------

  lemma {:induction false} JoinSplit(s: string, sep: char)
    ensures Join(Split(s, sep), sep) == s && FreeOf(Split(s, sep), sep)
  {
    if s != [] {
      var rest := Split(s[1..], sep);
      JoinSplit(s[1..], sep);
      assert s == [s[0]] + s[1..];
      if s[0] == sep {
        assert ([""] + rest)[1..] == rest;
        assert "" + [sep] + Join(rest, sep) == [sep] + Join(rest, sep);
      } else {
        var parts := [[s[0]] + rest[0]] + rest[1..];
        assert parts[1..] == rest[1..] && parts[0] == [s[0]] + rest[0];
        JoinFirst(parts, rest, s[0], sep);
      }
    }
  }

  lemma JoinFirst(parts: seq<string>, rest: seq<string>, c: char, sep: char)
    requires rest != [] && |parts| == |rest| && parts[1..] == rest[1..] && parts[0] == [c] + rest[0]
    ensures Join(parts, sep) == [c] + Join(rest, sep)
  {
    if |rest| > 1 {
      assert [c] + rest[0] + [sep] + Join(rest[1..], sep) == [c] + (rest[0] + [sep] + Join(rest[1..], sep));
    }
  }

  // A text falls into entries at its commas and line breaks.
  lemma {:induction false} EntriesOf(text: string) returns (entries: seq<string>, seps: string)
    ensures IsJoined(text, entries, seps) && Split(Commas(text), ',') == entries
  {
    if text == [] {
      entries, seps := [""], [];
    } else {
      var rest, seps1 := EntriesOf(text[1..]);
      var c := text[0];
      assert Commas(text)[1..] == Commas(text[1..]);
      assert text == [c] + text[1..];
      if c == ',' || c == '\n' {
        entries, seps := [""] + rest, [c] + seps1;
        assert entries[1..] == rest && seps[1..] == seps1;
        assert "" + [c] + JoinBy(rest, seps1) == [c] + JoinBy(rest, seps1);
      } else {
        entries, seps := [[c] + rest[0]] + rest[1..], seps1;
        JoinByFirst(entries, rest, c, seps);
      }
    }
  }

  lemma JoinByFirst(parts: seq<string>, rest: seq<string>, c: char, seps: string)
    requires |parts| == |rest| == |seps| + 1 && parts[1..] == rest[1..] && parts[0] == [c] + rest[0]
    ensures JoinBy(parts, seps) == [c] + JoinBy(rest, seps)
  {
    if seps != [] {
      var later := JoinBy(rest[1..], seps[1..]);
      assert [c] + rest[0] + [seps[0]] + later == [c] + (rest[0] + [seps[0]] + later);
    }
  }

  // ---------- Stripping ----------

  lemma {:induction false} LeftPad(s: string) returns (n: nat)
    ensures n <= |s| && AllSpace(s[..n]) && StripLeft(s) == s[n..] && (n < |s| ==> !IsSpace(s[n]))
  {
    n := 0;
    if s != [] && IsSpace(s[0]) {
      var m := LeftPad(s[1..]);
      n := m + 1;
      assert s[1..][m..] == s[n..];
      forall i | 0 <= i < n ensures IsSpace(s[..n][i]) {
        if i > 0 { assert s[1..][..m][i - 1] == s[i]; }
      }
    }
  }

  lemma {:induction false} RightPad(s: string) returns (n: nat)
    ensures n <= |s| && AllSpace(s[n..]) && StripRight(s) == s[..n] && (n > 0 ==> !IsSpace(s[n - 1]))
    decreases |s|
  {
    n := |s|;
    if s != [] && IsSpace(s[|s| - 1]) {
      n := RightPad(s[..|s| - 1]);
      assert s[..|s| - 1][..n] == s[..n];
      forall i | 0 <= i < |s| - n ensures IsSpace(s[n..][i]) {
        if i < |s| - 1 - n { assert s[..|s| - 1][n..][i] == s[n..][i]; }
      }
    }
  }

  lemma StripIsPadded(s: string)
    ensures Padded(s, Strip(s)) && Trimmed(Strip(s))
  {
    var n := LeftPad(s);
    var m := RightPad(s[n..]);
    var core := s[n..][..m];
    assert Strip(s) == core;
    assert s[n..n + m] == core && s[n + m..] == s[n..][m..];
    assert PaddedAt(s, core, n);
    if m > 0 { assert core[0] == s[n] && core[m - 1] == s[n..][m - 1]; }
  }

  lemma BlankIsSpace(s: string)
    requires Strip(s) == ""
    ensures AllSpace(s)
  {
    StripIsPadded(s);
    var i :| PaddedAt(s, "", i);
    forall k | 0 <= k < |s| ensures IsSpace(s[k]) {
      if k < i { assert s[k] == s[..i][k]; } else { assert s[k] == s[i..][k - i]; }
    }
  }

  // ---------- Capacities ----------

  lemma {:induction false} GroupsOf(s: string)
    requires IsNumber(s)
    ensures IsNumeral("", Split(s, '_'))
    decreases |s|
  {
    hide *;
    NumberStart(s);
    assert s == [s[0]] + s[1..];
    if |s| == 1 {
      assert s == [s[0]];
      GroupAlone(s[0]);
      SplitWhole(s, '_');
    } else if s[1] == '_' {
      NumberAfter(s);
      RestIsNumber(s, 2);
      GroupsOf(s[2..]);
      assert s == [s[0]] + ['_'] + s[2..];
      SplitAppend([s[0]], '_', s[2..]);
      GroupBefore(s[0], Split(s[2..], '_'));
    } else {
      RestIsNumber(s, 1);
      GroupsOf(s[1..]);
      SplitStep(s, '_');
      GroupLonger(s[0], Split(s[1..], '_'));
    }
  }

  lemma NumberStart(s: string)
    requires IsNumber(s)
    ensures s != [] && '0' <= s[0] <= '9' && s[0] != '_'
  {
  }

  lemma NumberAfter(s: string)
    requires IsNumber(s) && |s| > 1 && s[1] == '_'
    ensures |s| > 2 && s[2] != '_'
  {
    assert |s| > 2 ==> !TwoUnderscores(s, 2);
  }

  lemma GroupAlone(c: char)
    requires '0' <= c <= '9'
    ensures IsNumeral("", [[c]]) && '_' !in [c]
  {
  }

  lemma GroupBefore(c: char, groups: seq<string>)
    requires '0' <= c <= '9' && IsNumeral("", groups)
    ensures IsNumeral("", [[c]] + groups)
  {
  }

  lemma GroupLonger(c: char, groups: seq<string>)
    requires '0' <= c <= '9' && IsNumeral("", groups)
    ensures IsNumeral("", [[c] + groups[0]] + groups[1..])
  {
    assert AllDigits(groups[0]);
  }

  lemma RestIsNumber(s: string, k: nat)
    requires IsNumber(s) && k < |s| && s[k] != '_'
    ensures IsNumber(s[k..])
  {
    var t := s[k..];
    assert s[k] in s;
    forall c | c in t ensures IsDigit(c) || c == '_' { assert c in s; }
    forall i | 0 <= i < |t| ensures !TwoUnderscores(t, i) { assert !TwoUnderscores(s, i + k); }
  }

  lemma CapacityIsSpelled(item: string, capacity: int)
    requires ParseInt(Strip(item)) == Just(capacity)
    ensures SpellsCapacity(item, capacity)
  {
    var s := Strip(item);
    StripIsPadded(item);
    var sign, number := if IsNumber(s) then "" else [s[0]], if IsNumber(s) then s else s[1..];
    assert s == sign + number;
    var groups := Split(number, '_');
    GroupsOf(number);
    JoinSplit(number, '_');
    assert IsNumeral(sign, groups) && Numeral(sign, groups) == s;
    NumeralRead(sign, groups);
  }

  // ---------- Options ----------

  lemma OptionIsSpelled(item: string, option: Option)
    requires ParseOption(Strip(item)) == Ok(option)
    ensures SpellsOption(item, option)
    ensures Trimmed(option.key) && (option.value.Text? ==> Trimmed(option.value.text))
  {
    hide Strip, Split, Padded, Trimmed;
    assert !IsSpace('=');
    SplitStripStrip(item, '=');
    var parts := Split(item, '=');
    JoinSplit(item, '=');
    forall i | 0 <= i < |parts| ensures Padded(parts[i], Strip(parts[i])) && Trimmed(Strip(parts[i])) {
      StripIsPadded(parts[i]);
    }
    if |parts| == 2 {
      var k := |parts[0]|;
      assert parts[1..] == [parts[1]];
      assert item == parts[0] + ['='] + parts[1];
      assert item[..k] == parts[0] && item[k + 1..] == parts[1] && SplitAt(item, k);
    }
  }

  // The first options of a configuration are spelled by the items from the third on.
  ghost predicate OptionsSpelled(items: seq<string>, options: seq<Option>) {
    && |items| >= 2 + |options|
    && (forall i :: 0 <= i < |options| ==> SpellsOption(items[i + 2], options[i]))
    && (forall i :: 0 <= i < |options| ==> ValidOption(options, i))
  }

  lemma OneOptionSpelled(items: seq<string>, options: seq<Option>, more: seq<Option>)
    requires OptionsSpelled(items, options) && |items| > 2 + |options|
    requires AddOption(options, Strip(items[2 + |options|])) == Ok(more)
    ensures |more| == |options| + 1 && OptionsSpelled(items, more)
  {
    hide Strip, ParseOption, Trimmed, SpellsOption;
    var item := items[2 + |options|];
    var option := ParseOption(Strip(item)).value;
    OptionIsSpelled(item, option);
    assert more == options + [option];
    forall i | 0 <= i < |more| ensures SpellsOption(items[i + 2], more[i]) && ValidOption(more, i) {
      if i < |options| { assert more[i] == options[i] && ValidOption(options, i); }
    }
  }

  lemma {:induction false} OptionsAreSpelled(items: seq<string>, n: nat, options: seq<Option>)
    requires |items| >= 2 + n && |StripAll(items)| == |items| && ParseOptions(StripAll(items)[2..], n) == Ok(options)
    ensures |options| == n && OptionsSpelled(items, options)
  {
    hide AddOption, OptionsSpelled, Strip;
    if n == 0 {
      NoOptions(items);
    } else {
      var before := ParseOptions(StripAll(items)[2..], n - 1).value;
      OptionsAreSpelled(items, n - 1, before);
      assert StripAll(items)[2..][n - 1] == Strip(items[n + 1]);
      OneOptionSpelled(items, before, options);
    }
  }

  lemma NoOptions(items: seq<string>)
    requires |items| >= 2
    ensures OptionsSpelled(items, [])
  {
  }

  // ---------- Channels ----------

  lemma ChannelIsSpelled(entry: string, config: Config)
    requires ParseChannel(Strip(entry)) == Ok(config)
    ensures Spells(entry, config) && Valid(config)
  {
    hide Strip, Split, StripAll, Padded, ParseInt, SpellsCapacity, SpellsOption, ParseOptions, Join, Trimmed;
    var items := Split(entry, ':');
    JoinSplit(entry, ':');
    ItemsRead(entry, items);
    StripIsPadded(items[0]);
    if |items| > 1 {
      CapacityIsSpelled(items[1], config.capacity);
      OptionsAreSpelled(items, |items| - 2, config.options);
    }
    assert SpelledBy(items, config);
  }

  lemma {:induction false} EntriesAreSpelled(entries: seq<string>, configs: seq<Config>)
    requires |StripAll(entries)| == |entries| && ParseEntries(StripAll(entries), |entries|) == Ok(configs)
    ensures SpellsAll(entries, configs) && AllValid(configs)
    decreases |entries|
  {
    hide Strip, StripAll, Spells, AllSpace, ParseChannel, Valid;
    if entries != [] {
      var n := |entries| - 1;
      StripAllLast(entries);
      EntriesPrefix(StripAll(entries), StripAll(entries[..n]), n);
      var before := ParseEntries(StripAll(entries), n).value;
      EntriesAreSpelled(entries[..n], before);
      if Strip(entries[n]) == "" {
        BlankIsSpace(entries[n]);
      } else {
        ChannelIsSpelled(entries[n], configs[|configs| - 1]);
        assert configs[..|configs| - 1] == before;
      }
    }
  }

  // A text is read as some configurations exactly if it spells them: their entries are separated
  // by commas or line breaks, blank entries do not count, white space around names, capacities,
  // keys and values does not matter, a capacity is a number in the notation of Python and can be
  // left out if it is 1, and no key is repeated.
  lemma ReadExactly(text: string, configs: seq<Config>)
    ensures Parse(text) == Ok(configs) <==>
      exists entries, seps :: IsJoined(text, entries, seps) && SpellsAll(entries, configs) && AllValid(configs)
  {
    hide SplitStrip, IsJoined, SpellsAll, AllValid, ParseEntries;
    if Parse(text) == Ok(configs) {
      var entries, seps := EntriesOf(text);
      ParsedEntries(text, entries, configs);
      EntriesAreSpelled(entries, configs);
    }
    if entries, seps :| IsJoined(text, entries, seps) && SpellsAll(entries, configs) && AllValid(configs) {
      TextRead(text, entries, seps, configs);
    }
  }

  lemma ParsedEntries(text: string, entries: seq<string>, configs: seq<Config>)
    requires Parse(text) == Ok(configs) && Split(Commas(text), ',') == entries
    ensures |StripAll(entries)| == |entries| && ParseEntries(StripAll(entries), |entries|) == Ok(configs)
  {
  }
}

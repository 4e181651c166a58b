// The text of a channel configuration: name, capacity and options of each channel.
module ChannelConfig {

  datatype Value = Flag | Text(text: string)

  datatype Option = Option(key: string, value: Value)

  datatype Config = Config(name: string, capacity: int, options: seq<Option>)

  datatype Error = MissingName | InvalidCapacity | IncorrectItem | DuplicateKey

  datatype Result<T> = Ok(value: T) | Err(error: Error)

  // ---------- Splitting and stripping ----------

  // White space in the sense of the str type of Python.
  predicate IsSpace(c: char) {
    var n := c as int;
    || 0x09 <= n <= 0x0D || 0x1C <= n <= 0x20 || n == 0x85 || n == 0xA0 || n == 0x1680
    || 0x2000 <= n <= 0x200A || n == 0x2028 || n == 0x2029 || n == 0x202F || n == 0x205F || n == 0x3000
  }

  function Split(s: string, sep: char): (parts: seq<string>)
    ensures parts != []
  {
    if s == [] then [""]
    else
      var rest := Split(s[1..], sep);
      if s[0] == sep then [""] + rest else [[s[0]] + rest[0]] + rest[1..]
  }

  function StripLeft(s: string): string {
    if s != [] && IsSpace(s[0]) then StripLeft(s[1..]) else s
  }

  function StripRight(s: string): string {
    if s != [] && IsSpace(s[|s| - 1]) then StripRight(s[..|s| - 1]) else s
  }

  function Strip(s: string): string {
    StripRight(StripLeft(s))
  }

  function StripAll(parts: seq<string>): seq<string> {
    seq(|parts|, i requires 0 <= i < |parts| => Strip(parts[i]))
  }

  function SplitStrip(s: string, sep: char): (parts: seq<string>)
    ensures parts != []
  {
    StripAll(Split(s, sep))
  }

  // ---------- Numbers ----------

  predicate IsDigit(c: char) {
    '0' <= c <= '9'
  }

  predicate TwoUnderscores(s: string, i: int) {
    0 < i < |s| && s[i - 1] == '_' && s[i] == '_'
  }

  // Digits, with single underscores between them.
  predicate IsNumber(s: string) {
    && s != [] && IsDigit(s[0]) && IsDigit(s[|s| - 1])
    && (forall c :: c in s ==> IsDigit(c) || c == '_') && (forall i :: 0 <= i < |s| ==> !TwoUnderscores(s, i))
  }

  function DigitsValue(s: string): int
    requires forall c :: c in s ==> IsDigit(c) || c == '_'
  {
    if s == [] then 0
    else if s[|s| - 1] == '_' then DigitsValue(s[..|s| - 1])
    else 10 * DigitsValue(s[..|s| - 1]) + (s[|s| - 1] as int - '0' as int)
  }

  datatype Maybe<T> = Nothing | Just(value: T)

  // An integer: digits, with or without a sign.
  function ParseInt(s: string): Maybe<int> {
    if IsNumber(s) then Just(DigitsValue(s))
    else if s != [] && s[0] == '-' && IsNumber(s[1..]) then Just(-DigitsValue(s[1..]))
    else if s != [] && s[0] == '+' && IsNumber(s[1..]) then Just(DigitsValue(s[1..]))
    else Nothing
  }

  // ---------- Parsing ----------

  predicate HasKey(options: seq<Option>, key: string) {
    exists i :: 0 <= i < |options| && options[i].key == key
  }

  // A key is taken if an option has it; name and capacity are taken from the start.
  predicate Taken(options: seq<Option>, key: string) {
    key == "name" || key == "capacity" || HasKey(options, key)
  }

  function ParseOption(item: string): Result<Option> {
    var kv := SplitStrip(item, '=');
    if |kv| == 1 then Ok(Option(kv[0], Flag))
    else if |kv| == 2 then Ok(Option(kv[0], Text(kv[1])))
    else Err(IncorrectItem)
  }

  function AddOption(options: seq<Option>, item: string): Result<seq<Option>> {
    match ParseOption(item)
    case Ok(option) => if Taken(options, option.key) then Err(DuplicateKey) else Ok(options + [option])
    case Err(e) => Err(e)
  }

  // The options of the first n items.
  function ParseOptions(items: seq<string>, n: nat): Result<seq<Option>>
    requires n <= |items|
  {
    if n == 0 then Ok([])
    else
      match ParseOptions(items, n - 1)
      case Ok(options) => AddOption(options, items[n - 1])
      case Err(e) => Err(e)
  }

  function ParseChannel(entry: string): Result<Config> {
    var items := SplitStrip(entry, ':');
    if items[0] == "" then Err(MissingName)
    else if |items| == 1 then Ok(Config(items[0], 1, []))
    else if ParseInt(items[1]).Nothing? then Err(InvalidCapacity)
    else
      match ParseOptions(items[2..], |items| - 2)
      case Ok(options) => Ok(Config(items[0], ParseInt(items[1]).value, options))
      case Err(e) => Err(e)
  }

  // Empty entries are ignored.
  function AddEntry(configs: seq<Config>, entry: string): Result<seq<Config>> {
    if entry == "" then Ok(configs)
    else
      match ParseChannel(entry)
      case Ok(config) => Ok(configs + [config])
      case Err(e) => Err(e)
  }

  // The configurations of the first n entries.
  function ParseEntries(entries: seq<string>, n: nat): Result<seq<Config>>
    requires n <= |entries|
  {
    if n == 0 then Ok([])
    else
      match ParseEntries(entries, n - 1)
      case Ok(configs) => AddEntry(configs, entries[n - 1])
      case Err(e) => Err(e)
  }

  // Line breaks stand for commas.
  function Commas(s: string): string {
    seq(|s|, i requires 0 <= i < |s| => if s[i] == '\n' then ',' else s[i])
  }

  function Parse(s: string): Result<seq<Config>> {
    var entries := SplitStrip(Commas(s), ',');
    ParseEntries(entries, |entries|)
  }

  // ---------- The parser ----------

  lemma {:induction false} OptionErrorStays(items: seq<string>, n: nat, m: nat)
    requires n <= m <= |items| && ParseOptions(items, n).Err?
    ensures ParseOptions(items, m) == ParseOptions(items, n)
  {
    if n < m { OptionErrorStays(items, n, m - 1); }
  }

  lemma {:induction false} EntryErrorStays(entries: seq<string>, n: nat, m: nat)
    requires n <= m <= |entries| && ParseEntries(entries, n).Err?
    ensures ParseEntries(entries, m) == ParseEntries(entries, n)
  {
    if n < m { EntryErrorStays(entries, n, m - 1); }
  }

  method ParseConfigItems(items: seq<string>) returns (r: Result<seq<Option>>)
    ensures r == ParseOptions(items, |items|)
  {
    hide SplitStrip, Taken;
    var options := [];
    for i := 0 to |items|
      invariant ParseOptions(items, i) == Ok(options)
    {
      var kv := SplitStrip(items[i], '=');
      if |kv| > 2 {
        OptionErrorStays(items, i + 1, |items|);
        return Err(IncorrectItem);
      }
      var option := Option(kv[0], if |kv| == 1 then Flag else Text(kv[1]));
      if Taken(options, option.key) {
        OptionErrorStays(items, i + 1, |items|);
        return Err(DuplicateKey);
      }
      options := options + [option];
    }
    r := Ok(options);
  }

  method ParseOneChannel(entry: string) returns (config: Result<Config>)
    ensures config == ParseChannel(entry)
  {
    hide SplitStrip, ParseInt, ParseOptions;
    var items := SplitStrip(entry, ':');
    if items[0] == "" {
      return Err(MissingName);
    }
    if |items| == 1 {
      return Ok(Config(items[0], 1, []));
    }
    var capacity := ParseInt(items[1]);
    if capacity.Nothing? {
      return Err(InvalidCapacity);
    }
    var options := ParseConfigItems(items[2..]);
    config := if options.Ok? then Ok(Config(items[0], capacity.value, options.value)) else Err(options.error);
  }

  method ParseSimpleConfig(text: string) returns (r: Result<seq<Config>>)
    ensures r == Parse(text)
  {
    hide SplitStrip, ParseChannel;
    var configs := [];
    var entries := SplitStrip(Commas(text), ',');
    for i := 0 to |entries|
      invariant ParseEntries(entries, i) == Ok(configs)
    {
      if entries[i] != "" {
        var config := ParseOneChannel(entries[i]);
        if config.Err? {
          EntryErrorStays(entries, i + 1, |entries|);
          return Err(config.error);
        }
        configs := configs + [config.value];
      }
    }
    r := Ok(configs);
  }

  // ---------- Texts that spell a configuration ----------

  predicate AllSpace(s: string) {
    forall i :: 0 <= i < |s| ==> IsSpace(s[i])
  }

  predicate Trimmed(s: string) {
    s == "" || (!IsSpace(s[0]) && !IsSpace(s[|s| - 1]))
  }

  predicate PaddedAt(s: string, core: string, i: int) {
    0 <= i <= i + |core| <= |s| && s[i..i + |core|] == core && AllSpace(s[..i]) && AllSpace(s[i + |core|..])
  }

  // White space around the core.
  ghost predicate Padded(s: string, core: string) {
    exists i :: PaddedAt(s, core, i)
  }

  ghost function Join(parts: seq<string>, sep: char): string
    requires parts != []
  {
    if |parts| == 1 then parts[0] else parts[0] + [sep] + Join(parts[1..], sep)
  }

  predicate FreeOf(parts: seq<string>, c: char) {
    forall i :: 0 <= i < |parts| ==> c !in parts[i]
  }

  predicate SplitAt(item: string, k: int) {
    0 <= k < |item| && item[k] == '=' && '=' !in item[..k] && '=' !in item[k + 1..]
  }

  ghost predicate SpellsOption(item: string, option: Option) {
    match option.value
    case Flag => '=' !in item && Padded(item, option.key)
    case Text(text) => exists k :: SplitAt(item, k) && Padded(item[..k], option.key) && Padded(item[k + 1..], text)
  }

  ghost predicate AllDigits(s: string) {
    s != "" && forall i :: 0 <= i < |s| ==> '0' <= s[i] <= '9'
  }

  ghost function Concat(groups: seq<string>): string {
    if groups == [] then "" else groups[0] + Concat(groups[1..])
  }

  // Groups of digits with single underscores between them, with or without a sign.
  ghost predicate IsNumeral(sign: string, groups: seq<string>) {
    sign in ["", "+", "-"] && groups != [] && forall i :: 0 <= i < |groups| ==> AllDigits(groups[i])
  }

  ghost function Numeral(sign: string, groups: seq<string>): string
    requires IsNumeral(sign, groups)
  {
    sign + Join(groups, '_')
  }

  ghost function NumeralValue(sign: string, groups: seq<string>): int
    requires IsNumeral(sign, groups)
  {
    ConcatDigits(groups);
    var n := DigitsValue(Concat(groups)); if sign == "-" then -n else n
  }

  lemma {:induction false} ConcatDigits(groups: seq<string>)
    requires forall i :: 0 <= i < |groups| ==> AllDigits(groups[i])
    ensures forall c :: c in Concat(groups) ==> IsDigit(c)
  {
    if groups != [] { ConcatDigits(groups[1..]); }
  }

  ghost predicate SpellsCapacity(item: string, capacity: int) {
    exists sign, groups ::
      IsNumeral(sign, groups) && Padded(item, Numeral(sign, groups)) && NumeralValue(sign, groups) == capacity
  }

  // The items of an entry; a capacity of 1 without options can be left out.
  ghost predicate SpelledBy(items: seq<string>, config: Config) {
    && items != [] && FreeOf(items, ':') && Padded(items[0], config.name)
    && if |items| == 1 then config.capacity == 1 && config.options == []
       else
         && SpellsCapacity(items[1], config.capacity) && |items| == 2 + |config.options|
         && forall i :: 0 <= i < |config.options| ==> SpellsOption(items[i + 2], config.options[i])
  }

  ghost predicate Spells(entry: string, config: Config) {
    exists items :: SpelledBy(items, config) && entry == Join(items, ':')
  }

  // Blank entries can stand anywhere.
  ghost predicate SpellsAll(entries: seq<string>, configs: seq<Config>)
    decreases |entries|
  {
    if entries == [] then configs == []
    else
      var n, m := |entries| - 1, |configs| - 1;
      || (AllSpace(entries[n]) && SpellsAll(entries[..n], configs))
      || (configs != [] && Spells(entries[n], configs[m]) && SpellsAll(entries[..n], configs[..m]))
  }

  // Names, keys and texts are trimmed, names are not empty and keys are different.
  ghost predicate Valid(config: Config) {
    && config.name != "" && Trimmed(config.name)
    && (forall i :: 0 <= i < |config.options| ==> ValidOption(config.options, i))
  }

  ghost predicate ValidOption(options: seq<Option>, i: nat)
    requires i < |options|
  {
    && Trimmed(options[i].key) && (options[i].value.Text? ==> Trimmed(options[i].value.text))
    && options[i].key != "name" && options[i].key != "capacity"
    && forall k :: 0 <= k < i ==> options[k].key != options[i].key
  }

  // ---------- Splitting what was joined ----------

  lemma {:induction false} SplitAppend(a: string, sep: char, b: string)
    requires sep !in a
    ensures Split(a + [sep] + b, sep) == [a] + Split(b, sep)
  {
    if a == [] {
      assert (a + [sep] + b)[1..] == b;
    } else {
      SplitAppend(a[1..], sep, b);
      assert (a + [sep] + b)[1..] == a[1..] + [sep] + b;
      assert [a[0]] + a[1..] == a;
      assert sep !in a[1..] && a[0] != sep;
    }
  }

  lemma {:induction false} SplitWhole(a: string, sep: char)
    requires sep !in a
    ensures Split(a, sep) == [a]
  {
    if a != [] {
      assert sep !in a[1..] && a[0] != sep && [a[0]] + a[1..] == a;
      SplitWhole(a[1..], sep);
    }
  }

  lemma {:induction false} SplitJoin(parts: seq<string>, sep: char)
    requires parts != [] && FreeOf(parts, sep)
    ensures Split(Join(parts, sep), sep) == parts
    decreases |parts|
  {
    if |parts| == 1 {
      SplitWhole(parts[0], sep);
    } else {
      SplitJoin(parts[1..], sep);
      SplitAppend(parts[0], sep, Join(parts[1..], sep));
    }
  }

  // ---------- Stripping ----------

  lemma {:induction false} StripLeftPadded(a: string, b: string)
    requires AllSpace(a)
    ensures StripLeft(a + b) == StripLeft(b)
  {
    if a != [] {
      assert (a + b)[1..] == a[1..] + b;
      StripLeftPadded(a[1..], b);
    } else {
      assert a + b == b;
    }
  }

  lemma {:induction false} StripRightPadded(a: string, b: string)
    requires AllSpace(b)
    ensures StripRight(a + b) == StripRight(a)
    decreases |b|
  {
    if b != [] {
      assert (a + b)[..|a + b| - 1] == a + b[..|b| - 1];
      StripRightPadded(a, b[..|b| - 1]);
    } else {
      assert a + b == a;
    }
  }

  lemma StripPadded(s: string, core: string)
    requires Padded(s, core) && Trimmed(core)
    ensures Strip(s) == core
  {
    var i :| PaddedAt(s, core, i);
    var a, b := s[..i], s[i + |core|..];
    assert s == a + (core + b);
    StripLeftPadded(a, core + b);
    if core == "" {
      assert core + b == b;
      StripLeftPadded(b, "");
      assert b + "" == b;
    } else {
      assert (core + b)[0] == core[0];
      StripRightPadded(core, b);
    }
  }

  lemma StripBlank(s: string)
    ensures AllSpace(s) ==> Strip(s) == ""
  {
    if AllSpace(s) {
      assert PaddedAt(s, "", 0);
      StripPadded(s, "");
    }
  }

  // ---------- Stripping a whole entry changes none of its stripped parts ----------

  lemma StripLeftOne(c: char, s: string)
    requires IsSpace(c)
    ensures Strip([c] + s) == Strip(s)
  {
    assert ([c] + s)[1..] == s;
  }

  lemma SplitStep(s: string, sep: char)
    requires s != []
    ensures var rest := Split(s[1..], sep);
      Split(s, sep) == if s[0] == sep then [""] + rest else [[s[0]] + rest[0]] + rest[1..]
  {
  }

  // One more character belongs to the last part.
  ghost function LastMore(parts: seq<string>, c: char): seq<string>
    requires parts != []
  {
    parts[..|parts| - 1] + [parts[|parts| - 1] + [c]]
  }

  lemma LastMoreStep(rest: seq<string>, first: char, c: char)
    requires rest != []
    ensures LastMore([""] + rest, c) == [""] + LastMore(rest, c)
    ensures var longer := LastMore(rest, c);
      LastMore([[first] + rest[0]] + rest[1..], c) == [[first] + longer[0]] + longer[1..]
  {
    if |rest| == 1 {
      assert ([first] + rest[0]) + [c] == [first] + (rest[0] + [c]);
    }
  }

  lemma {:induction false} SplitLast(s: string, c: char, sep: char)
    requires c != sep
    ensures Split(s + [c], sep) == LastMore(Split(s, sep), c)
  {
    if s == [] {
      assert s + [c] == [c];
      SplitWhole([c], sep);
      SplitWhole("", sep);
      assert "" + [c] == [c];
    } else {
      SplitLast(s[1..], c, sep);
      assert (s + [c])[1..] == s[1..] + [c] && (s + [c])[0] == s[0];
      SplitStep(s + [c], sep);
      SplitStep(s, sep);
      LastMoreStep(Split(s[1..], sep), s[0], c);
    }
  }

  lemma {:induction false} StripRightOne(s: string, c: char)
    requires IsSpace(c)
    ensures Strip(s + [c]) == Strip(s)
    decreases |s|
  {
    if s == [] {
      assert s + [c] == [c] && [c][1..] == [];
    } else if IsSpace(s[0]) {
      StripRightOne(s[1..], c);
      assert (s + [c])[1..] == s[1..] + [c];
    } else {
      assert (s + [c])[..|s|] == s;
    }
  }

  lemma {:induction false} SplitStripLeft(s: string, sep: char)
    requires !IsSpace(sep)
    ensures SplitStrip(StripLeft(s), sep) == SplitStrip(s, sep)
  {
    if s != [] && IsSpace(s[0]) {
      SplitStripLeft(s[1..], sep);
      var rest := Split(s[1..], sep);
      StripLeftOne(s[0], rest[0]);
      assert Split(s, sep) == [[s[0]] + rest[0]] + rest[1..];
      assert StripAll([[s[0]] + rest[0]] + rest[1..]) == StripAll(rest);
    }
  }

  lemma {:induction false} SplitStripRight(s: string, sep: char)
    requires !IsSpace(sep)
    ensures SplitStrip(StripRight(s), sep) == SplitStrip(s, sep)
    decreases |s|
  {
    hide *;
    StripRightStep(s);
    if s != [] && IsSpace(s[|s| - 1]) {
      var n := |s| - 1;
      assert s == s[..n] + [s[n]];
      OneSpaceMore(s[..n], s[n], sep);
      SplitStripRight(s[..n], sep);
    }
  }

  lemma StripRightStep(s: string)
    ensures StripRight(s) == if s != [] && IsSpace(s[|s| - 1]) then StripRight(s[..|s| - 1]) else s
  {
  }

  lemma StripLastMore(parts: seq<string>, c: char)
    requires parts != [] && IsSpace(c)
    ensures StripAll(LastMore(parts, c)) == StripAll(parts)
  {
    hide Strip;
    StripRightOne(parts[|parts| - 1], c);
  }

  // A white space at the end changes no stripped part.
  lemma OneSpaceMore(s: string, c: char, sep: char)
    requires IsSpace(c) && !IsSpace(sep)
    ensures SplitStrip(s + [c], sep) == SplitStrip(s, sep)
  {
    hide IsSpace, Split, StripAll, LastMore;
    assert c != sep;
    SplitLast(s, c, sep);
    StripLastMore(Split(s, sep), c);
  }

  lemma SplitStripStrip(s: string, sep: char)
    requires !IsSpace(sep)
    ensures SplitStrip(Strip(s), sep) == SplitStrip(s, sep)
  {
    SplitStripRight(StripLeft(s), sep);
    SplitStripLeft(s, sep);
  }

  // ---------- What spells a configuration is read as it ----------

  lemma StripTwo(a: string, b: string)
    ensures StripAll([a]) == [Strip(a)] && StripAll([a, b]) == [Strip(a), Strip(b)]
  {
  }

  lemma SplitPair(item: string, k: int)
    requires SplitAt(item, k)
    ensures SplitStrip(item, '=') == [Strip(item[..k]), Strip(item[k + 1..])]
  {
    assert item == item[..k] + ['='] + item[k + 1..];
    SplitAppend(item[..k], '=', item[k + 1..]);
    SplitWhole(item[k + 1..], '=');
    StripTwo(item[..k], item[k + 1..]);
  }

  lemma SplitSingle(item: string, sep: char)
    requires sep !in item
    ensures SplitStrip(item, sep) == [Strip(item)]
  {
    SplitWhole(item, sep);
    StripTwo(item, item);
  }

  lemma OptionRead(item: string, option: Option)
    requires Trimmed(option.key) && (option.value.Text? ==> Trimmed(option.value.text)) && SpellsOption(item, option)
    ensures ParseOption(Strip(item)) == Ok(option)
  {
    hide SplitStrip, Strip, Trimmed, Padded;
    assert !IsSpace('=');
    SplitStripStrip(item, '=');
    match option.value
    case Flag =>
      SplitSingle(item, '=');
      StripPadded(item, option.key);
    case Text(text) =>
      var k :| SplitAt(item, k) && Padded(item[..k], option.key) && Padded(item[k + 1..], text);
      SplitPair(item, k);
      StripPadded(item[..k], option.key);
      StripPadded(item[k + 1..], text);
  }

  lemma OneOption(items: seq<string>, config: Config, n: nat)
    requires Valid(config) && SpelledBy(items, config) && |items| > 1 && n < |config.options|
    ensures n + 2 < |items| && AddOption(config.options[..n], StripAll(items)[2..][n]) == Ok(config.options[..n + 1])
  {
    hide SplitStrip, Strip, Trimmed, Padded, ParseOption;
    assert SpellsOption(items[n + 2], config.options[n]);
    assert ValidOption(config.options, n);
    OptionRead(items[n + 2], config.options[n]);
    assert config.options[..n] + [config.options[n]] == config.options[..n + 1];
  }

  lemma {:induction false} OptionsRead(items: seq<string>, config: Config, n: nat)
    requires Valid(config) && SpelledBy(items, config) && |items| > 1 && n <= |config.options|
    ensures |items| == 2 + |config.options| && ParseOptions(StripAll(items)[2..], n) == Ok(config.options[..n])
  {
    hide SplitStrip, Strip, Trimmed, Padded, AddOption, SpellsOption, Valid, StripAll;
    if n > 0 {
      OptionsRead(items, config, n - 1);
      OneOption(items, config, n - 1);
    }
  }

  ghost function Digits(s: string): string {
    if s == [] then []
    else Digits(s[..|s| - 1]) + if s[|s| - 1] == '_' then [] else [s[|s| - 1]]
  }

  lemma {:induction false} DigitsAppend(a: string, b: string)
    ensures Digits(a + b) == Digits(a) + Digits(b)
    decreases |b|
  {
    if b == [] {
      assert a + b == a;
    } else {
      DigitsAppend(a, b[..|b| - 1]);
      assert (a + b)[..|a + b| - 1] == a + b[..|b| - 1];
    }
  }

  lemma {:induction false} DigitsOfDigits(s: string)
    requires '_' !in s
    ensures Digits(s) == s
  {
    if s != [] { DigitsOfDigits(s[..|s| - 1]); }
  }

  lemma {:induction false} DigitsCount(s: string)
    requires forall c :: c in s ==> IsDigit(c) || c == '_'
    ensures forall c :: c in Digits(s) ==> IsDigit(c)
    ensures DigitsValue(Digits(s)) == DigitsValue(s)
  {
    if s != [] {
      var before, c := s[..|s| - 1], s[|s| - 1];
      DigitsCount(before);
      if c == '_' {
        assert Digits(s) == Digits(before);
      } else {
        assert Digits(s) == Digits(before) + [c] && (Digits(before) + [c])[..|Digits(before)|] == Digits(before);
        assert c in s;
      }
    }
  }

  lemma {:induction false} JoinDigits(groups: seq<string>)
    requires groups != [] && forall i :: 0 <= i < |groups| ==> AllDigits(groups[i])
    ensures Digits(Join(groups, '_')) == Concat(groups)
    decreases |groups|
  {
    assert '_' !in groups[0];
    DigitsOfDigits(groups[0]);
    hide AllDigits, Digits;
    if |groups| > 1 {
      JoinDigits(groups[1..]);
      DigitsAppend(groups[0] + ['_'], Join(groups[1..], '_'));
      DigitsAppend(groups[0], ['_']);
      NoDigits();
      assert groups[0] + [] == groups[0];
    } else {
      assert groups[1..] == [] && groups[0] + "" == groups[0];
    }
  }

  lemma NoDigits()
    ensures Digits(['_']) == []
  {
    assert ['_'][..0] == [];
  }

  lemma GroupIsNumber(s: string)
    requires AllDigits(s)
    ensures IsNumber(s)
  {
    forall i | 0 <= i < |s| ensures !TwoUnderscores(s, i) {
      assert s[i] != '_';
    }
  }

  lemma GroupMore(a: string, b: string)
    requires AllDigits(a) && IsNumber(b)
    ensures IsNumber(a + ['_'] + b)
  {
    var s := a + ['_'] + b;
    assert s[0] == a[0] && s[|s| - 1] == b[|b| - 1];
    forall i | 0 <= i < |s| ensures !TwoUnderscores(s, i) {
      if i < |a| { assert s[i] == a[i]; }
      if i == |a| + 1 { assert s[i] == b[0]; }
      if i > |a| + 1 {
        assert s[i] == b[i - |a| - 1] && s[i - 1] == b[i - |a| - 2];
        assert !TwoUnderscores(b, i - |a| - 1);
      }
    }
    forall c | c in s ensures IsDigit(c) || c == '_' {
      assert c in a || c == '_' || c in b;
    }
  }

  lemma {:induction false} JoinIsNumber(groups: seq<string>)
    requires groups != [] && forall i :: 0 <= i < |groups| ==> AllDigits(groups[i])
    ensures IsNumber(Join(groups, '_'))
    decreases |groups|
  {
    if |groups| == 1 {
      GroupIsNumber(groups[0]);
    } else {
      JoinIsNumber(groups[1..]);
      GroupMore(groups[0], Join(groups[1..], '_'));
    }
  }

  lemma NumeralRead(sign: string, groups: seq<string>)
    requires IsNumeral(sign, groups)
    ensures ParseInt(Numeral(sign, groups)) == Just(NumeralValue(sign, groups)) && Trimmed(Numeral(sign, groups))
  {
    hide *;
    NumeralParts(sign, groups);
    var s := Join(groups, '_');
    JoinIsNumber(groups);
    JoinDigits(groups);
    NumberChars(s);
    DigitsCount(s);
    NumberPlain(s);
    SignedNumber(s);
    assert "" + s == s;
  }

  lemma NumeralParts(sign: string, groups: seq<string>)
    requires IsNumeral(sign, groups)
    ensures sign == "" || sign == "+" || sign == "-"
    ensures groups != [] && forall i :: 0 <= i < |groups| ==> AllDigits(groups[i])
    ensures forall c :: c in Concat(groups) ==> IsDigit(c)
    ensures Numeral(sign, groups) == sign + Join(groups, '_')
    ensures NumeralValue(sign, groups) == if sign == "-" then -DigitsValue(Concat(groups)) else DigitsValue(Concat(groups))
  {
    ConcatDigits(groups);
    hide AllDigits, Concat, Join, DigitsValue, IsDigit;
  }

  lemma NumberChars(s: string)
    requires IsNumber(s)
    ensures forall c :: c in s ==> IsDigit(c) || c == '_'
  {
  }

  lemma SignedNumber(s: string)
    requires IsNumber(s)
    ensures Trimmed("+" + s) && forall c :: c in s ==> IsDigit(c) || c == '_'
    ensures ParseInt(s) == Just(DigitsValue(s))
    ensures ParseInt("+" + s) == Just(DigitsValue(s)) && ParseInt("-" + s) == Just(-DigitsValue(s))
  {
    NumberPlain(s);
    var t := "+" + s;
    assert !IsDigit(t[0]) && t[|t| - 1] == s[|s| - 1];
    assert !IsNumber(t) && t[1..] == s;
    hide IsDigit, DigitsValue;
  }

  lemma CapacityRead(item: string, capacity: int)
    requires SpellsCapacity(item, capacity)
    ensures ParseInt(Strip(item)) == Just(capacity)
  {
    hide Padded, Numeral, NumeralValue, ParseInt, Trimmed, Strip, IsNumeral;
    var sign, groups :|
      IsNumeral(sign, groups) && Padded(item, Numeral(sign, groups)) && NumeralValue(sign, groups) == capacity;
    NumeralRead(sign, groups);
    StripPadded(item, Numeral(sign, groups));
  }

  lemma ChannelRead(entry: string, config: Config)
    requires Valid(config) && Spells(entry, config)
    ensures Strip(entry) != "" && ParseChannel(Strip(entry)) == Ok(config)
  {
    hide Strip, Split, StripAll, Padded, Trimmed, SpellsOption, SpellsCapacity;
    var items :| SpelledBy(items, config) && entry == Join(items, ':');
    NameRead(items, config);
    ItemsRead(entry, items);
    SplitSingle("", ':');
    assert Strip("") == "" by { StripBlank(""); }
    if |items| > 1 {
      CapacityRead(items[1], config.capacity);
      OptionsRead(items, config, |config.options|);
      assert config.options[..|config.options|] == config.options;
    }
  }

  lemma NameRead(items: seq<string>, config: Config)
    requires Valid(config) && SpelledBy(items, config)
    ensures Strip(items[0]) == config.name && config.name != ""
  {
    StripPadded(items[0], config.name);
  }

  lemma ItemsRead(entry: string, items: seq<string>)
    requires items != [] && FreeOf(items, ':') && entry == Join(items, ':')
    ensures SplitStrip(Strip(entry), ':') == StripAll(items) && |StripAll(items)| == |items|
    ensures forall i :: 0 <= i < |items| ==> StripAll(items)[i] == Strip(items[i])
  {
    SplitJoin(items, ':');
    SplitStripStrip(entry, ':');
  }

  ghost predicate AllValid(configs: seq<Config>) {
    forall i :: 0 <= i < |configs| ==> Valid(configs[i])
  }

  lemma {:induction false} EntriesPrefix(a: seq<string>, b: seq<string>, n: nat)
    requires n <= |a| && n <= |b| && a[..n] == b[..n]
    ensures ParseEntries(a, n) == ParseEntries(b, n)
  {
    if n > 0 {
      assert a[..n - 1] == a[..n][..n - 1] && b[..n - 1] == b[..n][..n - 1];
      assert a[n - 1] == a[..n][n - 1] && b[n - 1] == b[..n][n - 1];
      EntriesPrefix(a, b, n - 1);
    }
  }

  lemma StripAllLast(entries: seq<string>)
    requires entries != []
    ensures var n := |entries| - 1;
      |StripAll(entries)| == |entries| && StripAll(entries)[n] == Strip(entries[n])
      && StripAll(entries)[..n] == StripAll(entries[..n])
  {
  }

  lemma ValidPrefix(configs: seq<Config>)
    requires AllValid(configs) && configs != []
    ensures AllValid(configs[..|configs| - 1]) && Valid(configs[|configs| - 1])
  {
  }

  lemma {:induction false} EntriesRead(entries: seq<string>, configs: seq<Config>)
    requires AllValid(configs) && SpellsAll(entries, configs)
    ensures |StripAll(entries)| == |entries| && ParseEntries(StripAll(entries), |entries|) == Ok(configs)
    decreases |entries|
  {
    hide Strip, StripAll, Spells, AllSpace, ParseChannel, AllValid, Valid;
    if entries == [] {
      StripNone();
    } else {
      var n, m := |entries| - 1, |configs| - 1;
      StripAllLast(entries);
      EntriesPrefix(StripAll(entries), StripAll(entries[..n]), n);
      StripBlank(entries[n]);
      if AllSpace(entries[n]) && SpellsAll(entries[..n], configs) {
        EntriesRead(entries[..n], configs);
      } else {
        ValidPrefix(configs);
        EntriesRead(entries[..n], configs[..m]);
        ChannelRead(entries[n], configs[m]);
        assert configs[..m] + [configs[m]] == configs;
      }
    }
  }

  lemma StripNone()
    ensures StripAll([]) == []
  {
  }

  ghost function JoinBy(parts: seq<string>, seps: string): string
    requires |parts| == |seps| + 1
  {
    if seps == [] then parts[0] else parts[0] + [seps[0]] + JoinBy(parts[1..], seps[1..])
  }

  // The entries with a comma or a line break between any two of them.
  ghost predicate IsJoined(text: string, entries: seq<string>, seps: string) {
    && |entries| == |seps| + 1 && (forall i :: 0 <= i < |seps| ==> seps[i] == ',' || seps[i] == '\n')
    && FreeOf(entries, ',') && FreeOf(entries, '\n') && text == JoinBy(entries, seps)
  }

  lemma {:induction false} JoinedEntries(text: string, entries: seq<string>, seps: string)
    requires IsJoined(text, entries, seps)
    ensures Split(Commas(text), ',') == entries
    decreases |seps|
  {
    if seps == [] {
      NoBreaks(text);
      SplitWhole(text, ',');
    } else {
      var rest := JoinBy(entries[1..], seps[1..]);
      JoinedEntries(rest, entries[1..], seps[1..]);
      NoBreaks(entries[0]);
      CommasAround(entries[0], seps[0], rest);
      SplitAppend(entries[0], ',', Commas(rest));
    }
  }

  lemma {:induction false} JoinCommas(parts: seq<string>, seps: string)
    requires |parts| == |seps| + 1 && forall i :: 0 <= i < |seps| ==> seps[i] == ','
    ensures JoinBy(parts, seps) == Join(parts, ',')
    decreases |seps|
  {
    if seps != [] { JoinCommas(parts[1..], seps[1..]); }
  }

  lemma CommasAround(a: string, c: char, b: string)
    requires c == ',' || c == '\n'
    ensures Commas(a + [c] + b) == Commas(a) + [','] + Commas(b)
  {
  }

  // Any text of entries that spell the configurations, with commas or line breaks between them,
  // blank entries anywhere, and white space around names, capacities, keys and values, is read as
  // these configurations.
  lemma TextRead(text: string, entries: seq<string>, seps: string, configs: seq<Config>)
    requires IsJoined(text, entries, seps) && AllValid(configs) && SpellsAll(entries, configs)
    ensures Parse(text) == Ok(configs)
  {
    JoinedEntries(text, entries, seps);
    EntriesRead(entries, configs);
  }

  // ---------- Writing configurations ----------

  function Digit(d: int): char
    requires 0 <= d <= 9
  {
    (d + '0' as int) as char
  }

  function RenderDigits(n: nat): string {
    (if n < 10 then "" else RenderDigits(n / 10)) + [Digit(n % 10)]
  }

  function RenderInt(n: int): string {
    if n < 0 then "-" + RenderDigits(-n) else RenderDigits(n)
  }

  lemma {:induction false} DigitsRead(n: nat)
    ensures RenderDigits(n) != [] && forall c :: c in RenderDigits(n) ==> IsDigit(c)
    ensures DigitsValue(RenderDigits(n)) == n
  {
    if n >= 10 {
      DigitsRead(n / 10);
    }
    var s := RenderDigits(n);
    assert s[..|s| - 1] == if n < 10 then "" else RenderDigits(n / 10);
    assert s[|s| - 1] == Digit(n % 10) && IsDigit(Digit(n % 10));
  }

  lemma NumberPlain(s: string)
    requires IsNumber(s)
    ensures Trimmed(s) && Trimmed("-" + s)
    ensures !IsNumber("-" + s) && ("-" + s)[1..] == s
  {
    var t := "-" + s;
    assert !IsDigit(t[0]) && t[|t| - 1] == s[|s| - 1];
  }

  lemma IntRead(n: int)
    ensures SpellsCapacity(RenderInt(n), n)
    ensures ':' !in RenderInt(n) && ',' !in RenderInt(n) && '\n' !in RenderInt(n)
  {
    hide *;
    var m := if n < 0 then -n else n;
    var sign, digits := if n < 0 then "-" else "", RenderDigits(m);
    DigitsRead(m);
    RenderIs(n);
    OneGroup(sign, digits);
    PaddedSelf(sign + digits);
    SpelledCapacity(sign + digits, sign, [digits], n);
    NoSeparators(digits);
    assert "" + digits == digits;
  }

  lemma RenderIs(n: int)
    ensures n >= 0 ==> RenderInt(n) == RenderDigits(n)
    ensures n < 0 ==> RenderInt(n) == "-" + RenderDigits(-n)
  {
    hide RenderDigits;
  }

  lemma NoSeparators(digits: string)
    requires forall c :: c in digits ==> IsDigit(c)
    ensures ':' !in digits && ',' !in digits && '\n' !in digits
  {
  }

  lemma SpelledCapacity(item: string, sign: string, groups: seq<string>, n: int)
    requires IsNumeral(sign, groups) && Padded(item, Numeral(sign, groups)) && NumeralValue(sign, groups) == n
    ensures SpellsCapacity(item, n)
  {
    hide IsNumeral, Padded, Numeral, NumeralValue;
  }

  lemma OneGroup(sign: string, digits: string)
    requires sign in ["", "+", "-"] && digits != [] && forall c :: c in digits ==> IsDigit(c)
    ensures IsNumeral(sign, [digits]) && Numeral(sign, [digits]) == sign + digits
    ensures NumeralValue(sign, [digits]) == if sign == "-" then -DigitsValue(digits) else DigitsValue(digits)
  {
    forall i | 0 <= i < |digits| ensures '0' <= digits[i] <= '9' { assert digits[i] in digits; }
    assert [digits][1..] == [] && digits + "" == digits;
    assert Concat([]) == "" && Concat([digits]) == digits;
  }

  function RenderOption(option: Option): string {
    match option.value
    case Flag => option.key
    case Text(text) => option.key + "=" + text
  }

  function Items(config: Config): seq<string> {
    [config.name, RenderInt(config.capacity)] +
    seq(|config.options|, i requires 0 <= i < |config.options| => RenderOption(config.options[i]))
  }

  ghost function RenderConfig(config: Config): string {
    Join(Items(config), ':')
  }

  ghost function Render(configs: seq<Config>): string {
    if configs == [] then ""
    else Join(seq(|configs|, i requires 0 <= i < |configs| => RenderConfig(configs[i])), ',')
  }

  // No separator occurs in a name, key or text.
  predicate Plain(s: string) {
    ':' !in s && ',' !in s && '\n' !in s && '=' !in s
  }

  predicate PlainConfig(config: Config) {
    && ':' !in config.name && ',' !in config.name && '\n' !in config.name
    && forall i :: 0 <= i < |config.options| ==>
        Plain(config.options[i].key) && (config.options[i].value.Text? ==> Plain(config.options[i].value.text))
  }

  lemma PaddedSelf(s: string)
    ensures Padded(s, s)
  {
    assert PaddedAt(s, s, 0);
  }

  lemma OptionSpelled(option: Option)
    requires Plain(option.key) && (option.value.Text? ==> Plain(option.value.text))
    ensures SpellsOption(RenderOption(option), option)
    ensures ':' !in RenderOption(option) && ',' !in RenderOption(option) && '\n' !in RenderOption(option)
  {
    PaddedSelf(option.key);
    match option.value
    case Flag =>
    case Text(text) =>
      PaddedSelf(text);
      var item, k := RenderOption(option), |option.key|;
      assert item[..k] == option.key && item[k + 1..] == text && item[k] == '=';
      assert SplitAt(item, k);
  }

  lemma ItemSpelled(config: Config, i: nat)
    requires PlainConfig(config) && i < |config.options|
    ensures |Items(config)| == 2 + |config.options| && SpellsOption(Items(config)[i + 2], config.options[i])
    ensures ':' !in Items(config)[i + 2] && ',' !in Items(config)[i + 2] && '\n' !in Items(config)[i + 2]
  {
    hide *;
    ItemAt(config, i);
    PlainOption(config, i);
    OptionSpelled(config.options[i]);
  }

  lemma ItemAt(config: Config, i: nat)
    requires i < |config.options|
    ensures |Items(config)| == 2 + |config.options| && Items(config)[i + 2] == RenderOption(config.options[i])
  {
    hide RenderOption, RenderInt;
    var options := seq(|config.options|, i requires 0 <= i < |config.options| => RenderOption(config.options[i]));
    assert Items(config)[i + 2] == options[i];
  }

  lemma PlainOption(config: Config, i: nat)
    requires PlainConfig(config) && i < |config.options|
    ensures Plain(config.options[i].key) && (config.options[i].value.Text? ==> Plain(config.options[i].value.text))
  {
    hide Plain;
  }

  lemma FirstItems(config: Config)
    requires PlainConfig(config)
    ensures |Items(config)| == 2 + |config.options| && Padded(Items(config)[0], config.name)
    ensures SpellsCapacity(Items(config)[1], config.capacity)
    ensures forall i :: 0 <= i < 2 ==> ':' !in Items(config)[i] && ',' !in Items(config)[i] && '\n' !in Items(config)[i]
  {
    PaddedSelf(config.name);
    IntRead(config.capacity);
    hide Padded, RenderInt, SpellsCapacity;
  }

  lemma ConfigSpelled(config: Config)
    requires PlainConfig(config)
    ensures SpelledBy(Items(config), config) && Spells(RenderConfig(config), config)
    ensures FreeOf(Items(config), ',') && FreeOf(Items(config), '\n')
  {
    hide Items, PlainConfig, Padded, SpellsCapacity, SpellsOption, Join;
    var items := Items(config);
    FirstItems(config);
    forall i | 0 <= i < |config.options| ensures SpellsOption(items[i + 2], config.options[i]) {
      ItemSpelled(config, i);
    }
    forall i | 0 <= i < |items| ensures ':' !in items[i] && ',' !in items[i] && '\n' !in items[i] {
      if i >= 2 { ItemSpelled(config, i - 2); }
    }
  }

  lemma {:induction false} JoinFree(parts: seq<string>, sep: char, c: char)
    requires parts != [] && FreeOf(parts, c) && c != sep
    ensures c !in Join(parts, sep)
    decreases |parts|
  {
    if |parts| > 1 { JoinFree(parts[1..], sep, c); }
  }

  lemma {:induction false} AllSpelled(entries: seq<string>, configs: seq<Config>)
    requires |entries| == |configs| && forall i :: 0 <= i < |configs| ==> Spells(entries[i], configs[i])
    ensures SpellsAll(entries, configs)
  {
    if entries != [] {
      var n := |entries| - 1;
      AllSpelled(entries[..n], configs[..n]);
    }
  }

  lemma NoBreaks(s: string)
    requires '\n' !in s
    ensures Commas(s) == s
  {
  }

  // Reading what was written gives the same configurations.
  lemma RoundTrip(configs: seq<Config>)
    requires AllValid(configs) && forall i :: 0 <= i < |configs| ==> PlainConfig(configs[i])
    ensures Parse(Render(configs)) == Ok(configs)
  {
    if configs == [] {
      TextRead("", [""], "", []);
    } else {
      var entries := seq(|configs|, i requires 0 <= i < |configs| => RenderConfig(configs[i]));
      forall i | 0 <= i < |configs|
        ensures Spells(entries[i], configs[i]) && ',' !in entries[i] && '\n' !in entries[i]
      {
        ConfigSpelled(configs[i]);
        JoinFree(Items(configs[i]), ':', ',');
        JoinFree(Items(configs[i]), ':', '\n');
      }
      AllSpelled(entries, configs);
      var seps := seq(|entries| - 1, _ => ',');
      JoinCommas(entries, seps);
      TextRead(Render(configs), entries, seps, configs);
    }
  }
}

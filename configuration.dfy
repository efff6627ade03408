/**
 * The pure parts of the bot's configuration: the comma-separated endpoint
 * list, the auto-trading flag and the validation predicate. Reading the
 * environment and parsing numbers is not modelled; the defaults the loader
 * falls back to are kept as constants.
 */
module Configuration {
  import opened Options

  /** The profit threshold the loader uses when MIN_PROFIT_THRESHOLD is unset. */
  const DefaultMinProfitThreshold: real := 0.01

  datatype Config = Config(
    rpcEndpoints: seq<string>,
    privateKey: Option<string>,
    minProfitThreshold: real,
    maxTradeAmount: real,
    gasLimit: int,
    scanInterval: int,
    enableAutoTrading: bool)

  // ---------------------------------------------------------------------
  // Whitespace stripping, as Python's str.strip() with no argument
  // ---------------------------------------------------------------------

  /** The characters for which Python's str.isspace() holds. */
  predicate IsSpace(c: char) {
    || c == ' '
    || ('\t' <= c <= '\r')
    || ('\U{1C}' <= c <= '\U{1F}')
    || c == '\U{85}' || c == '\U{A0}' || c == '\U{1680}'
    || ('\U{2000}' <= c <= '\U{200A}')
    || c == '\U{2028}' || c == '\U{2029}' || c == '\U{202F}'
    || c == '\U{205F}' || c == '\U{3000}'
  }

  /** Drops leading whitespace: the result is a suffix that does not start
      with a space. */
  function TrimStart(s: string): (r: string)
    ensures |r| <= |s| && r == s[|s| - |r|..]
    ensures r == [] || !IsSpace(r[0])
  {
    if s != [] && IsSpace(s[0]) then TrimStart(s[1..]) else s
  }

  /** Only spaces are dropped at the front. */
  lemma {:induction false} TrimStartDropsSpaces(s: string)
    ensures forall k :: 0 <= k < |s| - |TrimStart(s)| ==> IsSpace(s[k])
  {
    if s != [] && IsSpace(s[0]) {
      TrimStartDropsSpaces(s[1..]);
      forall k | 1 <= k < |s| - |TrimStart(s)| ensures IsSpace(s[k]) {
        assert s[k] == s[1..][k - 1];
      }
    }
  }

  /** Drops trailing whitespace: the result is a prefix that does not end
      with a space. */
  function TrimEnd(s: string): (r: string)
    ensures |r| <= |s| && r == s[..|r|]
    ensures r == [] || !IsSpace(r[|r| - 1])
  {
    if s != [] && IsSpace(s[|s| - 1]) then TrimEnd(s[..|s| - 1]) else s
  }

  /** Only spaces are dropped at the back. */
  lemma {:induction false} TrimEndDropsSpaces(s: string)
    ensures forall k :: |TrimEnd(s)| <= k < |s| ==> IsSpace(s[k])
  {
    if s != [] && IsSpace(s[|s| - 1]) {
      TrimEndDropsSpaces(s[..|s| - 1]);
      forall k | |TrimEnd(s)| <= k < |s| - 1 ensures IsSpace(s[k]) {
        assert s[k] == s[..|s| - 1][k];
      }
    }
  }

  /** A non-empty string with no whitespace at either end. */
  predicate Trimmed(t: string) {
    t != [] && !IsSpace(t[0]) && !IsSpace(t[|t| - 1])
  }

  /** str.strip(): a contiguous piece of s with no whitespace at either end. */
  function Strip(s: string): (r: string)
    ensures |r| <= |s|
    ensures r == [] || Trimmed(r)
  {
    TrimEnd(TrimStart(s))
  }

  /** Stripping gives the empty string exactly when s is all whitespace. */
  lemma StripEmpty(s: string)
    ensures Strip(s) == [] <==> forall k :: 0 <= k < |s| ==> IsSpace(s[k])
  {
    var t := TrimStart(s);
    TrimStartDropsSpaces(s);
    TrimEndDropsSpaces(t);
    if Strip(s) == [] {
      forall k | 0 <= k < |s| ensures IsSpace(s[k]) {
        if k >= |s| - |t| {
          assert s[k] == t[k - (|s| - |t|)];
        }
      }
    } else {
      var r := Strip(s);
      assert r[0] == t[0] == s[|s| - |t|];
    }
  }

  /** Stripping only removes characters: what is left occurs in the input. */
  lemma StripKeepsCharacters(s: string)
    ensures forall k :: 0 <= k < |Strip(s)| ==> Strip(s)[k] in s
  {
    var t := TrimStart(s);
    var off := |s| - |t|;
    assert Strip(s) == s[off..off + |Strip(s)|];
    SliceCharacters(s, off, off + |Strip(s)|);
  }

  lemma SliceCharacters<T>(s: seq<T>, lo: nat, hi: nat)
    requires lo <= hi <= |s|
    ensures forall k :: 0 <= k < hi - lo ==> s[lo..hi][k] in s
  {
    forall k | 0 <= k < hi - lo ensures s[lo..hi][k] in s {
      assert s[lo..hi][k] == s[lo + k];
    }
  }

  // ---------------------------------------------------------------------
  // Splitting on a separator, as Python's str.split(sep)
  // ---------------------------------------------------------------------

  /** str.split(sep): the separator-free fields between separators, so that
      n separators give n + 1 fields, some of them possibly empty. */
  function Split(s: string, sep: char): (fields: seq<string>)
    ensures |fields| >= 1
    ensures forall k :: 0 <= k < |fields| ==> sep !in fields[k]
  {
    if s == [] then [[]]
    else
      var rest := Split(s[1..], sep);
      if s[0] == sep then [[]] + rest else [[s[0]] + rest[0]] + rest[1..]
  }

  /** sep.join(fields), the inverse of Split. */
  function Join(fields: seq<string>, sep: char): string
    requires |fields| >= 1
  {
    if |fields| == 1 then fields[0] else fields[0] + [sep] + Join(fields[1..], sep)
  }

  /** Joining the fields back with the separator gives the input. */
  lemma {:induction false} JoinSplit(s: string, sep: char)
    ensures Join(Split(s, sep), sep) == s
  {
    if s != [] {
      var rest := Split(s[1..], sep);
      JoinSplit(s[1..], sep);
      if s[0] == sep {
        assert Split(s, sep) == [[]] + rest;
        assert ([[]] + rest)[1..] == rest;
        assert s == [sep] + s[1..];
      } else {
        var fields := [[s[0]] + rest[0]] + rest[1..];
        assert Split(s, sep) == fields;
        if |rest| == 1 {
          assert s == [s[0]] + s[1..];
        } else {
          assert fields[1..] == rest[1..];
          assert Join(rest, sep) == rest[0] + [sep] + Join(rest[1..], sep);
          assert s == [s[0]] + s[1..];
        }
      }
    }
  }

  lemma {:induction false} SplitWithoutSeparator(p: string, sep: char)
    requires sep !in p
    ensures Split(p, sep) == [p]
  {
    if p != [] {
      SplitWithoutSeparator(p[1..], sep);
      assert [p[0]] + p[1..] == p;
    }
  }

  lemma {:induction false} SplitAfterField(p: string, t: string, sep: char)
    requires sep !in p
    ensures Split(p + [sep] + t, sep) == [p] + Split(t, sep)
  {
    var s := p + [sep] + t;
    if p == [] {
      assert s[1..] == t;
    } else {
      assert s[1..] == p[1..] + [sep] + t;
      SplitAfterField(p[1..], t, sep);
      assert [p[0]] + p[1..] == p;
    }
  }

  /** Splitting a join of separator-free fields gives the fields back. */
  lemma {:induction false} SplitJoin(fields: seq<string>, sep: char)
    requires |fields| >= 1
    requires forall k :: 0 <= k < |fields| ==> sep !in fields[k]
    ensures Split(Join(fields, sep), sep) == fields
  {
    if |fields| == 1 {
      SplitWithoutSeparator(fields[0], sep);
    } else {
      SplitJoin(fields[1..], sep);
      SplitAfterField(fields[0], Join(fields[1..], sep), sep);
      assert [fields[0]] + fields[1..] == fields;
    }
  }

  // ---------------------------------------------------------------------
  // The endpoint list
  // ---------------------------------------------------------------------

  /** Each item stripped, in order. */
  function StripEach(items: seq<string>): (r: seq<string>)
    ensures |r| == |items|
    ensures forall k :: 0 <= k < |items| ==> r[k] == Strip(items[k])
  {
    seq(|items|, k requires 0 <= k < |items| => Strip(items[k]))
  }

  /** The items that are not empty, in order. */
  function DropEmpty(items: seq<string>): (r: seq<string>)
    ensures |r| <= |items|
    ensures forall k :: 0 <= k < |r| ==> r[k] != [] && r[k] in items
  {
    if items == [] then []
    else if items[|items| - 1] == [] then DropEmpty(items[..|items| - 1])
    else DropEmpty(items[..|items| - 1]) + [items[|items| - 1]]
  }

  /** Every non-empty item survives the filter. */
  lemma {:induction false} DropEmptyKeeps(items: seq<string>, m: nat)
    requires m < |items| && items[m] != []
    ensures items[m] in DropEmpty(items)
  {
    if m < |items| - 1 {
      DropEmptyKeeps(items[..|items| - 1], m);
    }
  }

  /** The filter keeps order: filtering a concatenation is concatenating the filtered parts. */
  lemma {:induction false} DropEmptyAppend(a: seq<string>, b: seq<string>)
    ensures DropEmpty(a + b) == DropEmpty(a) + DropEmpty(b)
    decreases |b|
  {
    if b == [] {
      assert a + b == a;
    } else {
      var init := b[..|b| - 1];
      assert (a + b)[..|a + b| - 1] == a + init;
      assert (a + b)[|a + b| - 1] == b[|b| - 1];
      DropEmptyAppend(a, init);
    }
  }

  /** On one item the filter keeps it exactly when it is not empty; with
      DropEmptyAppend this fixes the result item by item, in order. */
  lemma DropEmptySingle(x: string)
    ensures DropEmpty([x]) == if x == [] then [] else [x]
  {
    assert [x][..0] == [];
  }

  /** `_parse_list`: the comma-separated items of the value, stripped, with
      empty ones dropped; an empty value gives no items. */
  function ParseList(value: string): (items: seq<string>)
    ensures value == [] ==> items == []
    ensures forall k :: 0 <= k < |items| ==> Trimmed(items[k])
  {
    if value == [] then [] else DropEmpty(StripEach(Split(value, ',')))
  }

  /** Every parsed item is the stripped form of one of the value's fields. */
  lemma ParseListSources(value: string, k: nat)
    requires k < |ParseList(value)|
    ensures exists m: nat :: m < |Split(value, ',')| && ParseList(value)[k] == Strip(Split(value, ',')[m])
  {
    var stripped := StripEach(Split(value, ','));
    assert ParseList(value)[k] in stripped;
    var m :| 0 <= m < |stripped| && stripped[m] == ParseList(value)[k];
  }

  /** No parsed item contains a comma. */
  lemma ParseListHasNoComma(value: string)
    ensures forall k :: 0 <= k < |ParseList(value)| ==> ',' !in ParseList(value)[k]
  {
    forall k | 0 <= k < |ParseList(value)| ensures ',' !in ParseList(value)[k] {
      ParseListSources(value, k);
      var m: nat :| m < |Split(value, ',')| && ParseList(value)[k] == Strip(Split(value, ',')[m]);
      StripKeepsCharacters(Split(value, ',')[m]);
    }
  }

  /** Every comma-separated field with non-blank content appears, stripped, in the list. */
  lemma ParseListKeepsFields(value: string)
    ensures forall m :: 0 <= m < |Split(value, ',')| && Strip(Split(value, ',')[m]) != [] ==>
      Strip(Split(value, ',')[m]) in ParseList(value)
  {
    var fields := Split(value, ',');
    if value == [] {
      assert fields == [[]] && Strip([]) == [];
    } else {
      var stripped := StripEach(fields);
      assert ParseList(value) == DropEmpty(stripped);
      forall m | 0 <= m < |fields| && Strip(fields[m]) != [] ensures Strip(fields[m]) in DropEmpty(stripped) {
        assert stripped[m] == Strip(fields[m]);
        DropEmptyKeeps(stripped, m);
      }
    }
  }

  /** For comma-free fields, parsing their comma-join gives exactly the
      stripped fields, in order, with the blank ones dropped. */
  lemma ParseListJoin(fields: seq<string>)
    requires |fields| >= 1
    requires forall k :: 0 <= k < |fields| ==> ',' !in fields[k]
    ensures ParseList(Join(fields, ',')) == DropEmpty(StripEach(fields))
  {
    SplitJoin(fields, ',');
    if Join(fields, ',') == [] {
      assert fields == [[]];
      assert StripEach(fields) == [[]];
      DropEmptySingle([]);
    }
  }

  // ---------------------------------------------------------------------
  // Validation and the auto-trading flag
  // ---------------------------------------------------------------------

  /** `validate`: at least one endpoint, and a key whenever auto-trading is on. */
  function Validate(config: Config): (ok: bool)
    ensures ok <==> config.rpcEndpoints != [] && (config.enableAutoTrading ==> Present(config.privateKey))
  {
    if config.rpcEndpoints == [] then false
    else if config.enableAutoTrading && !Present(config.privateKey) then false
    else true
  }

  /** Lower-casing of one character. Only ASCII letters are mapped: no other
      character lower-cases to a letter of "true", so the flag test below
      agrees with Python's full str.lower(). */
  function LowerChar(c: char): char {
    if 'A' <= c <= 'Z' then (c as int + 32) as char else c
  }

  function Lower(s: string): (r: string)
    ensures |r| == |s|
    ensures forall k :: 0 <= k < |s| ==> r[k] == LowerChar(s[k])
  {
    if s == [] then [] else [LowerChar(s[0])] + Lower(s[1..])
  }

  /** ENABLE_AUTO_TRADING: on when the variable, lower-cased, is "true";
      an unset variable reads as "false". */
  function AutoTradingEnabled(env: Option<string>): bool {
    Lower(env.GetOr("false")) == "true"
  }

  /** The flag is on exactly for the case-insensitive spellings of "true". */
  lemma AutoTradingSpelling(s: string)
    ensures AutoTradingEnabled(Some(s)) <==>
      |s| == 4 && s[0] in "tT" && s[1] in "rR" && s[2] in "uU" && s[3] in "eE"
  {
    var l := Lower(s);
    if |s| == 4 {
      assert l == [LowerChar(s[0]), LowerChar(s[1]), LowerChar(s[2]), LowerChar(s[3])];
    }
  }

  /** An unset variable leaves auto-trading off. */
  lemma AutoTradingDefault()
    ensures !AutoTradingEnabled(None)
  {
    assert Lower("false")[0] == 'f';
  }
}

/**
 * The Python string builtins that the job-script generator relies on:
 * `''.join` and `':'.join`, `str()` of an integer, `str()` of a list of
 * strings, and the first match of the regular expression `\d+`.
 * `str.split` is defined only to state that a joined list can be read back.
 */
module Strings {

  datatype Option<T> = None | Some(value: T) {
    /** The value, or `default` when there is none. */
    function GetOr(default: T): T {
      if Some? then value else default
    }
  }

  predicate IsDigit(c: char) {
    '0' <= c <= '9'
  }

  predicate AllDigits(s: string) {
    forall i :: 0 <= i < |s| ==> IsDigit(s[i])
  }

  // ---------------------------------------------------------------------
  // ''.join(items) and sep.join(items)
  // ---------------------------------------------------------------------

  /** The number of characters in a list of strings, all items together. */
  function TotalLength(items: seq<string>): nat {
    if items == [] then 0 else |items[0]| + TotalLength(items[1..])
  }

  /**
   * `''.join(items)`: the items back to back, with nothing between them, so
   * the result has exactly the items' characters and starts with the first.
   */
  function Concat(items: seq<string>): (r: string)
    ensures |r| == TotalLength(items)
    ensures items != [] ==> r[..|items[0]|] == items[0]
  {
    if items == [] then "" else items[0] + Concat(items[1..])
  }

  /**
   * `sep.join(items)`: the items' characters plus one separator between each
   * two neighbours, starting with the first item.
   */
  function Join(sep: string, items: seq<string>): (r: string)
    ensures items != [] ==> |r| == TotalLength(items) + (|items| - 1) * |sep|
    ensures items != [] ==> r[..|items[0]|] == items[0]
  {
    if |items| == 0 then ""
    else if |items| == 1 then items[0]
    else
      var rest := Join(sep, items[1..]);
      assert |rest| == TotalLength(items[1..]) + (|items| - 2) * |sep|;
      assert (|items| - 2) * |sep| + |sep| == (|items| - 1) * |sep|;
      items[0] + sep + rest
  }

  /** Concatenation is joining with the empty separator. */
  lemma {:induction false} ConcatIsJoinEmpty(items: seq<string>)
    ensures Concat(items) == Join("", items)
  {
    if |items| > 1 {
      ConcatIsJoinEmpty(items[1..]);
      assert Concat(items[1..]) == Join("", items[1..]);
    } else if |items| == 1 {
      assert items[1..] == [];
    }
  }

  /** Appending one item extends the concatenation by exactly that item. */
  lemma {:induction false} ConcatSnoc(items: seq<string>, x: string)
    ensures Concat(items + [x]) == Concat(items) + x
  {
    if items == [] {
      assert [x][1..] == [];
    } else {
      assert (items + [x])[1..] == items[1..] + [x];
      ConcatSnoc(items[1..], x);
    }
  }

  /** Appending one item to a non-empty list extends the join by the separator and the item. */
  lemma {:induction false} JoinSnoc(sep: string, items: seq<string>, x: string)
    requires items != []
    ensures Join(sep, items + [x]) == Join(sep, items) + sep + x
  {
    if |items| == 1 {
      assert (items + [x])[1..] == [x];
    } else {
      assert (items + [x])[1..] == items[1..] + [x];
      JoinSnoc(sep, items[1..], x);
    }
  }

  /**
   * Concatenation forgets where one item ends and the next begins: two
   * different lists with the same characters concatenate to the same text.
   */
  lemma ConcatNotInjective()
    ensures ["1", "23"] != ["12", "3"]
    ensures Concat(["1", "23"]) == Concat(["12", "3"])
  {
    assert ["1", "23"][0] != ["12", "3"][0];
    assert Concat(["1", "23"]) == "1" + Concat(["23"]);
    assert Concat(["12", "3"]) == "12" + Concat(["3"]);
  }

  // ---------------------------------------------------------------------
  // str.split(sep), the inverse of sep.join for one-character separators
  // ---------------------------------------------------------------------

  /** `s.split(sep)` for a one-character separator; never empty. */
  function Split(s: string, sep: char): (r: seq<string>)
    ensures |r| >= 1
  {
    if s == [] then [""]
    else
      var rest := Split(s[1..], sep);
      if s[0] == sep then [""] + rest else [[s[0]] + rest[0]] + rest[1..]
  }

  /** Splitting a separator-free prefix glues it onto the first piece. */
  lemma {:induction false} SplitPrefix(a: string, b: string, sep: char)
    requires sep !in a
    ensures Split(a + b, sep) == [a + Split(b, sep)[0]] + Split(b, sep)[1..]
  {
    if a != [] {
      assert (a + b)[0] == a[0];
      assert (a + b)[1..] == a[1..] + b;
      SplitPrefix(a[1..], b, sep);
      assert [a[0]] + (a[1..] + Split(b, sep)[0]) == a + Split(b, sep)[0];
    } else {
      assert a + b == b;
      var r := Split(b, sep);
      assert r == [r[0]] + r[1..];
      assert a + r[0] == r[0];
    }
  }

  /** Joining with a one-character separator can be undone when no item contains it. */
  lemma {:induction false} SplitJoin(items: seq<string>, sep: char)
    requires items != []
    requires forall i :: 0 <= i < |items| ==> sep !in items[i]
    ensures Split(Join([sep], items), sep) == items
  {
    if |items| == 1 {
      SplitPrefix(items[0], "", sep);
      assert items[0] + "" == items[0];
      assert Split(items[0], sep) == [items[0]];
    } else {
      var rest := Join([sep], items[1..]);
      SplitJoin(items[1..], sep);
      assert Split([sep] + rest, sep) == [""] + items[1..];
      assert items[0] + [sep] + rest == items[0] + ([sep] + rest);
      SplitPrefix(items[0], [sep] + rest, sep);
      assert items[0] + "" == items[0];
      assert items == [items[0]] + items[1..];
    }
  }

  /** The pieces of a `sep.join` of items free of `sep`, whenever the items are. */
  lemma SplitJoinWhenFree(items: seq<string>, sep: char)
    ensures items != [] && (forall i :: 0 <= i < |items| ==> sep !in items[i]) ==>
      Split(Join([sep], items), sep) == items
  {
    if items != [] && forall i :: 0 <= i < |items| ==> sep !in items[i] {
      SplitJoin(items, sep);
    }
  }

  /** Joining the pieces of a split restores the text. */
  lemma {:induction false} JoinSplit(s: string, sep: char)
    ensures Join([sep], Split(s, sep)) == s
  {
    if s != [] {
      var rest := Split(s[1..], sep);
      JoinSplit(s[1..], sep);
      if s[0] == sep {
        assert Split(s, sep) == [""] + rest;
        assert ([""] + rest)[1..] == rest;
        assert s == [sep] + s[1..];
      } else {
        var r := [[s[0]] + rest[0]] + rest[1..];
        assert Split(s, sep) == r;
        if |rest| == 1 {
          assert r == [[s[0]] + rest[0]];
          assert rest == [rest[0]];
          assert s == [s[0]] + s[1..];
        } else {
          assert r[1..] == rest[1..];
          assert Join([sep], rest) == rest[0] + [sep] + Join([sep], rest[1..]);
          assert s == [s[0]] + s[1..];
        }
      }
    }
  }

  // ---------------------------------------------------------------------
  // str() of an integer
  // ---------------------------------------------------------------------

  function DigitChar(d: nat): (c: char)
    requires d < 10
    ensures IsDigit(c)
  {
    ('0' as int + d) as char
  }

  function DigitValue(c: char): (d: nat)
    requires IsDigit(c)
    ensures d < 10 && DigitChar(d) == c
  {
    c as int - '0' as int
  }

  /** `str(n)` for a natural number: its decimal digits, most significant first. */
  function Decimal(n: nat): (r: string)
    ensures r != [] && AllDigits(r)
    ensures r[0] == '0' ==> n == 0
  {
    if n < 10 then [DigitChar(n)] else Decimal(n / 10) + [DigitChar(n % 10)]
  }

  /**
   * `str(i)` for any integer: a minus sign before the digits of a negative
   * number. The digits read back as the number's magnitude.
   */
  function IntText(i: int): (r: string)
    ensures r != []
    ensures i >= 0 ==> AllDigits(r) && ValueOf(r) == i
    ensures i < 0 ==> r[0] == '-' && AllDigits(r[1..]) && ValueOf(r[1..]) == -i
    ensures i >= 0 && r[0] == '0' ==> i == 0
    ensures i < 0 ==> |r| >= 2 && r[1] != '0'
  {
    if i < 0 then
      DecimalRoundTrip(-i);
      assert ("-" + Decimal(-i))[1..] == Decimal(-i);
      "-" + Decimal(-i)
    else
      DecimalRoundTrip(i);
      Decimal(i)
  }

  /** The number a string of decimal digits denotes. */
  function ValueOf(s: string): nat
    requires AllDigits(s)
  {
    if s == [] then 0 else 10 * ValueOf(s[..|s| - 1]) + DigitValue(s[|s| - 1])
  }

  /** Reading back the digits of `Decimal(n)` gives `n`. */
  lemma {:induction false} DecimalRoundTrip(n: nat)
    ensures ValueOf(Decimal(n)) == n
  {
    if n >= 10 {
      var s := Decimal(n);
      assert s[..|s| - 1] == Decimal(n / 10);
      DecimalRoundTrip(n / 10);
    } else {
      assert Decimal(n)[..0] == [];
    }
  }

  /** A digit string that is zero-valued has only zero digits. */
  lemma {:induction false} ZeroValueAllZero(s: string)
    requires AllDigits(s) && ValueOf(s) == 0
    ensures forall i :: 0 <= i < |s| ==> s[i] == '0'
  {
    if s != [] {
      ZeroValueAllZero(s[..|s| - 1]);
      assert forall i :: 0 <= i < |s| - 1 ==> s[i] == s[..|s| - 1][i];
    }
  }

  /** A digit string without a leading zero is what `Decimal` prints for its value. */
  lemma {:induction false} ValueOfRoundTrip(s: string)
    requires s != [] && AllDigits(s)
    requires s[0] == '0' ==> |s| == 1
    ensures Decimal(ValueOf(s)) == s
  {
    if |s| > 1 {
      var init := s[..|s| - 1];
      assert init[0] == s[0];
      assert AllDigits(init);
      if ValueOf(init) == 0 {
        ZeroValueAllZero(init);
        assert false;
      }
      ValueOfRoundTrip(init);
      var v := ValueOf(s);
      assert v / 10 == ValueOf(init) && v % 10 == DigitValue(s[|s| - 1]);
      assert s == init + [s[|s| - 1]];
    }
  }

  // ---------------------------------------------------------------------
  // str(list) for a list of strings
  // ---------------------------------------------------------------------

  /** `str(items)` for a list of plain strings: `['a', 'b']`. */
  function ListText(items: seq<string>): (r: string)
    ensures |r| >= 2 && r[0] == '[' && r[|r| - 1] == ']'
  {
    "[" + Join(", ", seq(|items|, i requires 0 <= i < |items| => "'" + items[i] + "'")) + "]"
  }

  // ---------------------------------------------------------------------
  // re.findall(r'\d+', s)[0]
  // ---------------------------------------------------------------------

  /** `d` is a maximal run of digits that starts at index `i` of `s`. */
  predicate RunAt(s: string, i: nat, d: string) {
    && d != []
    && AllDigits(d)
    && i + |d| <= |s|
    && s[i..i + |d|] == d
    && (i + |d| == |s| || !IsDigit(s[i + |d|]))
  }

  /** `d` is the first match of `\d+` in `s`: a maximal digit run with no digit before it. */
  ghost predicate IsFirstDigitRun(s: string, d: string) {
    exists i: nat :: RunAt(s, i, d) && forall j :: 0 <= j < i ==> !IsDigit(s[j])
  }

  /** Index of the first digit of `s`, or `|s|` when there is none. */
  function FirstDigitIndex(s: string): (i: nat)
    ensures i <= |s|
    ensures forall j :: 0 <= j < i ==> !IsDigit(s[j])
    ensures i < |s| ==> IsDigit(s[i])
  {
    if s == [] || IsDigit(s[0]) then 0 else 1 + FirstDigitIndex(s[1..])
  }

  /** End of the run of digits that starts at `i`. */
  function DigitRunEnd(s: string, i: nat): (e: nat)
    requires i <= |s|
    ensures i <= e <= |s|
    ensures forall j :: i <= j < e ==> IsDigit(s[j])
    ensures e == |s| || !IsDigit(s[e])
    decreases |s| - i
  {
    if i == |s| || !IsDigit(s[i]) then i else DigitRunEnd(s, i + 1)
  }

  /**
   * `re.findall(r'\d+', s)[0]`, or None where the list of matches is empty
   * (the source then fails with an index error).
   */
  function FirstDigitRun(s: string): (r: Option<string>)
    ensures r.None? <==> forall j :: 0 <= j < |s| ==> !IsDigit(s[j])
    ensures r.Some? ==> IsFirstDigitRun(s, r.value)
  {
    var i := FirstDigitIndex(s);
    if i == |s| then None
    else
      var e := DigitRunEnd(s, i);
      assert RunAt(s, i, s[i..e]);
      Some(s[i..e])
  }

  /** The first digit run is unique: the specification above determines the job id. */
  lemma FirstDigitRunUnique(s: string, d1: string, d2: string)
    requires IsFirstDigitRun(s, d1) && IsFirstDigitRun(s, d2)
    ensures d1 == d2
  {
    var i1: nat :| RunAt(s, i1, d1) && forall j :: 0 <= j < i1 ==> !IsDigit(s[j]);
    var i2: nat :| RunAt(s, i2, d2) && forall j :: 0 <= j < i2 ==> !IsDigit(s[j]);
    assert s[i1] == d1[0] && s[i2] == d2[0];
    assert i1 == i2;
  }

  /**
   * A reply made of digit-free text, a run of digits and then text that does
   * not start with a digit yields exactly that run.
   */
  lemma FirstDigitRunOf(pre: string, d: string, post: string)
    requires forall j :: 0 <= j < |pre| ==> !IsDigit(pre[j])
    requires d != [] && AllDigits(d)
    requires post == [] || !IsDigit(post[0])
    ensures FirstDigitRun(pre + d + post) == Some(d)
  {
    var s := pre + d + post;
    assert s[|pre|..|pre| + |d|] == d;
    assert RunAt(s, |pre|, d);
    assert IsFirstDigitRun(s, d);
    assert IsDigit(s[|pre|]);
    FirstDigitRunUnique(s, FirstDigitRun(s).value, d);
  }

  /** The grid-engine reply "Your job 42 has been submitted" yields the job id 42. */
  lemma FirstDigitRunExample()
    ensures FirstDigitRun("Your job " + "42" + " has been submitted") == Some("42")
  {
    var pre := "Your job ";
    assert forall j :: 0 <= j < |pre| ==> !IsDigit(pre[j]);
    FirstDigitRunOf(pre, "42", " has been submitted");
  }
}

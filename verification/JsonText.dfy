/** JSON values and their text as `json.dumps(value, sort_keys=True)` writes it: object keys in order, everything
    outside the printable ASCII characters escaped, `, ` between elements and `: ` after a key. A number is its
    numeral, so values are told apart as their texts tell them apart: 1 and 1.0 are different values here.
 */
module JsonText {
  import opened Common

  predicate IsNumeralChar(c: char) {
    '0' <= c <= '9' || 'a' <= c <= 'z' || 'A' <= c <= 'Z' || c == '+' || c == '-' || c == '.'
  }

  /** What a number is written as; NaN and Infinity are numbers too. */
  predicate IsNumeral(s: string) {
    s != "" && ('0' <= s[0] <= '9' || s[0] in "-NI") && forall i :: 0 <= i < |s| ==> IsNumeralChar(s[i])
  }

  type Numeral = s: string | IsNumeral(s) witness "0"

  datatype Json =
    | Null
    | Bool(truth: bool)
    | Number(numeral: Numeral)
    | Str(text: string)
    | Arr(items: seq<Json>)
    | Obj(fields: map<string, Json>)

  const QUOTE := 34 as char
  const BACKSLASH := 92 as char
  const BACKSPACE := 8 as char
  const FORM_FEED := 12 as char
  const LETTERS := [QUOTE, BACKSLASH, 'n', 'r', 't', 'b', 'f']

  const HEX_DIGITS := "0123456789abcdef"

  const ARRAY_OPENS := 91 as char
  const ARRAY_ENDS := 93 as char
  const OBJECT_OPENS := 123 as char
  const OBJECT_ENDS := 125 as char

  // ---- The order of texts -----------------------------------------------------------------------------

  /** Character by character. */
  predicate Before(a: string, b: string) {
    a == "" || (b != "" && (a[0] < b[0] || (a[0] == b[0] && Before(a[1..], b[1..]))))
  }

  lemma {:induction false} BeforeIsTotal(a: string, b: string)
    ensures Before(a, b) || Before(b, a)
    ensures Before(a, b) && Before(b, a) ==> a == b
  {
    if a != "" && b != "" {
      BeforeIsTotal(a[1..], b[1..]);
      assert a == [a[0]] + a[1..] && b == [b[0]] + b[1..];
    }
  }

  lemma {:induction false} BeforeIsTransitive(a: string, b: string, c: string)
    requires Before(a, b) && Before(b, c)
    ensures Before(a, c)
  {
    if a != "" && a[0] == b[0] == c[0] {
      BeforeIsTransitive(a[1..], b[1..], c[1..]);
    }
  }

  predicate IsFirst(keys: set<string>, key: string) {
    key in keys && forall k :: k in keys ==> Before(key, k)
  }

  lemma {:induction false} FirstExists(keys: set<string>)
    requires keys != {}
    ensures exists key :: IsFirst(keys, key)
  {
    var key :| key in keys;
    var rest := keys - {key};
    BeforeIsTotal(key, key);
    if rest == {} {
      assert keys == {key};
      assert IsFirst(keys, key);
    } else {
      FirstExists(rest);
      var first :| IsFirst(rest, first);
      BeforeIsTotal(key, first);
      if Before(first, key) {
        assert IsFirst(keys, first);
      } else {
        forall k | k in keys ensures Before(key, k) {
          if k in rest {
            BeforeIsTransitive(key, first, k);
          }
        }
        assert IsFirst(keys, key);
      }
    }
  }

  lemma FirstIsUnique(keys: set<string>, a: string, b: string)
    requires IsFirst(keys, a) && IsFirst(keys, b)
    ensures a == b
  {
    BeforeIsTotal(a, b);
  }

  function First(keys: set<string>): (key: string)
    requires keys != {}
    ensures IsFirst(keys, key)
  {
    FirstExists(keys);
    assert forall a, b :: IsFirst(keys, a) && IsFirst(keys, b) ==> a == b by {
      forall a, b | IsFirst(keys, a) && IsFirst(keys, b) ensures a == b {
        FirstIsUnique(keys, a, b);
      }
    }
    var key :| IsFirst(keys, key);
    key
  }

  function SortedKeys(keys: set<string>): (sorted: seq<string>)
    ensures forall k :: k in sorted <==> k in keys
  {
    if keys == {} then [] else [First(keys)] + SortedKeys(keys - {First(keys)})
  }

  // ---- The text of a string ---------------------------------------------------------------------------

  /** The last `digits` hexadecimal digits of a number. */
  function Hex(n: nat, digits: nat): string {
    if digits == 0 then "" else Hex(n / 16, digits - 1) + [HEX_DIGITS[n % 16]]
  }

  /** The letter after a backslash for the characters that have one. */
  function Letter(c: char): (letter: char)
    ensures letter == ' ' || letter in LETTERS
  {
    if c == QUOTE || c == BACKSLASH then c else if c == '\n' then 'n' else if c == '\r' then 'r'
    else if c == '\t' then 't' else if c == BACKSPACE then 'b' else if c == FORM_FEED then 'f' else ' '
  }

  function Unit(n: nat): string {
    [BACKSLASH, 'u'] + Hex(n, 4)
  }

  /** Characters beyond the first plane take two units. */
  function Escape(c: char): string {
    if Letter(c) != ' ' then [BACKSLASH, Letter(c)]
    else if ' ' <= c <= '~' then [c]
    else if c as int < 0x1_0000 then Unit(c as int)
    else Unit(0xd800 + (c as int - 0x1_0000) / 0x400) + Unit(0xdc00 + (c as int - 0x1_0000) % 0x400)
  }

  function Escaped(s: string): string {
    if s == "" then "" else Escape(s[0]) + Escaped(s[1..])
  }

  function Quoted(s: string): string {
    [QUOTE] + Escaped(s) + [QUOTE]
  }

  // ---- The text of a value ----------------------------------------------------------------------------

  function Separator(first: bool): string {
    if first then "" else ", "
  }

  function Dumps(x: Json): (text: string)
    ensures text != ""
    decreases x, 1, 0
  {
    match x
    case Null => "null"
    case Bool(truth) => if truth then "true" else "false"
    case Number(numeral) => numeral
    case Str(text) => Quoted(text)
    case Arr(_) => [ARRAY_OPENS] + ItemsFrom(x, 0)
    case Obj(_) => [OBJECT_OPENS] + FieldsFrom(x, SortedKeys(x.fields.Keys), true)
  }

  /** The elements from number `i` on, and the end of the array. */
  function ItemsFrom(x: Json, i: nat): string
    requires x.Arr? && i <= |x.items|
    decreases x, 0, |x.items| - i
  {
    if i == |x.items| then [ARRAY_ENDS] else Separator(i == 0) + Dumps(x.items[i]) + ItemsFrom(x, i + 1)
  }

  /** The fields with these keys, and the end of the object. */
  function FieldsFrom(x: Json, keys: seq<string>, first: bool): string
    requires x.Obj? && forall k :: k in keys ==> k in x.fields
    decreases x, 0, |keys|
  {
    if keys == [] then [OBJECT_ENDS]
    else Separator(first) + Quoted(keys[0]) + ": " + Dumps(x.fields[keys[0]]) + FieldsFrom(x, keys[1..], false)
  }

  // ---- Different values have different texts ----------------------------------------------------------

  /** Equal texts with equal beginnings have equal ends. */
  lemma Cancels(a: string, r: string, t: string)
    requires a + r == a + t
    ensures r == t
  {
    assert (a + r)[|a|..] == r && (a + t)[|a|..] == t;
  }

  /** Equal texts whose beginnings are equally long have equal beginnings. */
  lemma Splits(a: string, b: string, r: string, t: string)
    requires a + r == b + t && |a| == |b|
    ensures a == b && r == t
  {
    assert (a + r)[..|a|] == a && (b + t)[..|b|] == b;
    Cancels(a, r, t);
  }

  lemma HexDigitTells(m: nat, n: nat)
    requires m < 16 && n < 16 && HEX_DIGITS[m] == HEX_DIGITS[n]
    ensures m == n
  {
  }

  function Limit(digits: nat): nat {
    if digits == 0 then 1 else 16 * Limit(digits - 1)
  }

  lemma {:induction false} HexTells(m: nat, n: nat, digits: nat)
    requires m < Limit(digits) && n < Limit(digits)
    ensures |Hex(m, digits)| == |Hex(n, digits)| == digits
    ensures Hex(m, digits) == Hex(n, digits) ==> m == n
  {
    if digits > 0 {
      HexTells(m / 16, n / 16, digits - 1);
      var (a, b) := (HEX_DIGITS[m % 16], HEX_DIGITS[n % 16]);
      if Hex(m, digits) == Hex(n, digits) {
        Splits(Hex(m / 16, digits - 1), Hex(n / 16, digits - 1), [a], [b]);
        HexDigitTells(m % 16, n % 16);
      }
    }
  }

  /** A unit ends where the other one does. */
  lemma UnitTells(m: nat, n: nat, r: string, t: string)
    requires m < 0x1_0000 && n < 0x1_0000 && Unit(m) + r == Unit(n) + t
    ensures m == n && r == t
  {
    assert Limit(4) == 0x1_0000;
    HexTells(m, n, 4);
    Splits(Unit(m), Unit(n), r, t);
    Splits([BACKSLASH, 'u'], [BACKSLASH, 'u'], Hex(m, 4), Hex(n, 4));
  }

  predicate IsPlain(c: char) {
    Letter(c) == ' ' && ' ' <= c <= '~'
  }

  predicate TakesUnits(c: char) {
    Letter(c) == ' ' && !(' ' <= c <= '~')
  }

  /** How an escaped character begins. */
  lemma EscapeBegins(c: char, r: string)
    ensures var text := Escape(c) + r;
            && text != "" && text[0] != QUOTE
            && (IsPlain(c) ==> text == [c] + r && c != BACKSLASH)
            && (!IsPlain(c) ==> |text| >= 2 && text[0] == BACKSLASH)
            && (Letter(c) != ' ' ==> text == [BACKSLASH, Letter(c)] + r)
            && (TakesUnits(c) ==> text[1] == 'u')
  {
  }

  /** The first unit of a character that takes units, the second one, and what it means. */
  function FirstUnit(c: char): nat {
    if c as int < 0x1_0000 then c as int else 0xd800 + (c as int - 0x1_0000) / 0x400
  }

  function SecondUnit(c: char): nat
    requires c as int >= 0x1_0000
  {
    0xdc00 + (c as int - 0x1_0000) % 0x400
  }

  lemma UnitsAre(c: char, r: string)
    requires TakesUnits(c)
    ensures FirstUnit(c) < 0x1_0000 && (c as int < 0x1_0000 <==> !(0xd800 <= FirstUnit(c) < 0xdc00))
    ensures c as int < 0x1_0000 ==> Escape(c) + r == Unit(FirstUnit(c)) + r
    ensures c as int >= 0x1_0000 ==>
              SecondUnit(c) < 0x1_0000 && Escape(c) + r == Unit(FirstUnit(c)) + (Unit(SecondUnit(c)) + r)
  {
    if c as int >= 0x1_0000 {
      Grouping(Unit(FirstUnit(c)), Unit(SecondUnit(c)), r);
    }
  }

  lemma UnitsTell(c: char, d: char, r: string, t: string)
    requires TakesUnits(c) && TakesUnits(d) && Escape(c) + r == Escape(d) + t
    ensures c == d && r == t
  {
    UnitsAre(c, r);
    UnitsAre(d, t);
    var r1 := if c as int < 0x1_0000 then r else Unit(SecondUnit(c)) + r;
    var t1 := if d as int < 0x1_0000 then t else Unit(SecondUnit(d)) + t;
    UnitTells(FirstUnit(c), FirstUnit(d), r1, t1);
    if c as int >= 0x1_0000 {
      UnitTells(SecondUnit(c), SecondUnit(d), r, t);
    }
  }

  lemma LettersTell(c: char, d: char, r: string, t: string)
    requires !(TakesUnits(c) && TakesUnits(d)) && Escape(c) + r == Escape(d) + t
    ensures c == d && r == t
  {
    EscapeBegins(c, r);
    EscapeBegins(d, t);
    if IsPlain(c) || IsPlain(d) {
      assert ([c] + r)[1..] == r && ([d] + t)[1..] == t;
    } else {
      assert ([BACKSLASH, Letter(c)] + r)[2..] == r && ([BACKSLASH, Letter(d)] + t)[2..] == t;
    }
  }

  /** An escaped character is told from any other, and where it ends. */
  lemma EscapeTells(c: char, d: char, r: string, t: string)
    requires Escape(c) + r == Escape(d) + t
    ensures c == d && r == t
  {
    EscapeBegins(c, r);
    EscapeBegins(d, t);
    if TakesUnits(c) && TakesUnits(d) {
      UnitsTell(c, d, r, t);
    } else {
      LettersTell(c, d, r, t);
    }
  }

  /** How the text of a string begins, up to its closing quote. */
  lemma EscapedBegins(s: string, r: string)
    ensures var text := Escaped(s) + ([QUOTE] + r);
            && text != "" && (text[0] == QUOTE <==> s == "")
            && (s == "" ==> text == [QUOTE] + r)
            && (s != "" ==> text == Escape(s[0]) + (Escaped(s[1..]) + ([QUOTE] + r)))
  {
    if s != "" {
      Grouping(Escape(s[0]), Escaped(s[1..]), [QUOTE] + r);
      EscapeBegins(s[0], Escaped(s[1..]) + ([QUOTE] + r));
    }
  }

  /** The text of a string ends at its closing quote and nowhere before. */
  lemma {:induction false} EscapedTells(a: string, b: string, r: string, t: string)
    requires Escaped(a) + ([QUOTE] + r) == Escaped(b) + ([QUOTE] + t)
    ensures a == b && r == t
  {
    EscapedBegins(a, r);
    EscapedBegins(b, t);
    if a == "" {
      Cancels([QUOTE], r, t);
    } else {
      EscapeTells(a[0], b[0], Escaped(a[1..]) + ([QUOTE] + r), Escaped(b[1..]) + ([QUOTE] + t));
      EscapedTells(a[1..], b[1..], r, t);
      assert a == [a[0]] + a[1..] && b == [b[0]] + b[1..];
    }
  }

  lemma QuotedBegins(s: string, r: string)
    ensures Quoted(s) + r == [QUOTE] + (Escaped(s) + ([QUOTE] + r))
  {
    Grouping([QUOTE] + Escaped(s), [QUOTE], r);
    Grouping([QUOTE], Escaped(s), [QUOTE] + r);
  }

  lemma QuotedTells(a: string, b: string, r: string, t: string)
    requires Quoted(a) + r == Quoted(b) + t
    ensures a == b && r == t
  {
    QuotedBegins(a, r);
    QuotedBegins(b, t);
    Cancels([QUOTE], Escaped(a) + ([QUOTE] + r), Escaped(b) + ([QUOTE] + t));
    EscapedTells(a, b, r, t);
  }

  /** What may follow a value. */
  predicate Ends(r: string) {
    r == "" || r[0] == ',' || r[0] == ARRAY_ENDS || r[0] == OBJECT_ENDS
  }

  predicate AreNumeralChars(s: string) {
    forall i :: 0 <= i < |s| ==> IsNumeralChar(s[i])
  }

  /** Where a numeral ends, if the text goes on. */
  lemma NumeralEnds(m: string, r: string)
    requires AreNumeralChars(m) && Ends(r)
    ensures forall i :: 0 <= i < |m| ==> IsNumeralChar((m + r)[i])
    ensures r != "" ==> !IsNumeralChar((m + r)[|m|])
  {
  }

  lemma NumeralTells(m: string, n: string, r: string, t: string)
    requires AreNumeralChars(m) && AreNumeralChars(n) && Ends(r) && Ends(t) && m + r == n + t
    ensures m == n && r == t
  {
    NumeralEnds(m, r);
    NumeralEnds(n, t);
    assert |m| + |r| == |m + r| == |n| + |t|;
    Splits(m, n, r, t);
  }

  /** What kind of value a text begins. */
  function Kind(c: char): nat {
    if c == 'n' then 1 else if c == 't' then 2 else if c == 'f' then 3 else if c == QUOTE then 4
    else if c == ARRAY_OPENS then 5 else if c == OBJECT_OPENS then 6 else 0
  }

  function KindOf(x: Json): nat {
    match x
    case Null => 1
    case Bool(truth) => if truth then 2 else 3
    case Str(_) => 4
    case Arr(_) => 5
    case Obj(_) => 6
    case Number(_) => 0
  }

  lemma DumpsBegins(x: Json)
    ensures Kind(Dumps(x)[0]) == KindOf(x) && Dumps(x)[0] != ARRAY_ENDS
  {
  }

  lemma ItemsBegin(x: Json, i: nat, r: string)
    requires x.Arr? && i <= |x.items|
    ensures var text := ItemsFrom(x, i) + r;
            && text != "" && (text[0] == ARRAY_ENDS <==> i == |x.items|)
            && (i == |x.items| ==> text == [ARRAY_ENDS] + r)
            && (i < |x.items| ==> text == Separator(i == 0) + (Dumps(x.items[i]) + (ItemsFrom(x, i + 1) + r)))
            && (i > 0 ==> Ends(text))
  {
    if i < |x.items| {
      DumpsBegins(x.items[i]);
      Grouping(Separator(i == 0) + Dumps(x.items[i]), ItemsFrom(x, i + 1), r);
      Grouping(Separator(i == 0), Dumps(x.items[i]), ItemsFrom(x, i + 1) + r);
    }
  }

  lemma FiveParts(a: string, b: string, c: string, d: string, e: string, r: string)
    ensures a + b + c + d + e + r == a + (b + (c + (d + (e + r))))
  {
    Grouping(a + b + c + d, e, r);
    Grouping(a + b + c, d, e + r);
    Grouping(a + b, c, d + (e + r));
    Grouping(a, b, c + (d + (e + r)));
  }

  /** The text from a field's value on. */
  function FieldEnds(x: Json, keys: seq<string>, r: string): string
    requires x.Obj? && keys != [] && forall k :: k in keys ==> k in x.fields
  {
    Dumps(x.fields[keys[0]]) + (FieldsFrom(x, keys[1..], false) + r)
  }

  lemma FieldsBegin(x: Json, keys: seq<string>, first: bool, r: string)
    requires x.Obj? && forall k :: k in keys ==> k in x.fields
    ensures var text := FieldsFrom(x, keys, first) + r;
            && text != "" && (text[0] == OBJECT_ENDS <==> keys == [])
            && (keys == [] ==> text == [OBJECT_ENDS] + r)
            && (!first ==> Ends(text))
    ensures keys != [] ==>
              FieldsFrom(x, keys, first) + r ==
              Separator(first) + (Quoted(keys[0]) + (": " + FieldEnds(x, keys, r)))
  {
    if keys != [] {
      var (sep, key) := (Separator(first), Quoted(keys[0]));
      var (value, more) := (Dumps(x.fields[keys[0]]), FieldsFrom(x, keys[1..], false));
      FiveParts(sep, key, ": ", value, more, r);
      assert key[0] == QUOTE;
    }
  }

  lemma FieldsAreEqual(a: map<string, Json>, b: map<string, Json>, keys: seq<string>)
    requires (forall k :: k in keys <==> k in a) && (forall k :: k in keys <==> k in b)
    requires forall k :: k in keys ==> a[k] == b[k]
    ensures a == b
  {
    assert a.Keys == b.Keys;
  }

  /** The values without parts. */
  lemma SimpleTextTells(x: Json, y: Json, r: string, t: string)
    requires KindOf(x) == KindOf(y) && !x.Arr? && !x.Obj?
    requires Ends(r) && Ends(t) && Dumps(x) + r == Dumps(y) + t
    ensures x == y && r == t
  {
    if x.Number? {
      NumeralTells(x.numeral, y.numeral, r, t);
    } else if x.Str? {
      QuotedTells(x.text, y.text, r, t);
    } else {
      Cancels(Dumps(x), r, t);
    }
  }

  /** A value is told from any other by its text, and where it ends. */
  lemma {:induction false} TextTells(x: Json, y: Json, r: string, t: string)
    requires Ends(r) && Ends(t) && Dumps(x) + r == Dumps(y) + t
    ensures x == y && r == t
    decreases x, 1, 0
  {
    DumpsBegins(x);
    DumpsBegins(y);
    assert Dumps(x)[0] == (Dumps(x) + r)[0] == (Dumps(y) + t)[0] == Dumps(y)[0];
    if x.Arr? {
      Grouping([ARRAY_OPENS], ItemsFrom(x, 0), r);
      Grouping([ARRAY_OPENS], ItemsFrom(y, 0), t);
      Cancels([ARRAY_OPENS], ItemsFrom(x, 0) + r, ItemsFrom(y, 0) + t);
      ItemsTell(x, y, 0, r, t);
    } else if x.Obj? {
      var (ks, ls) := (SortedKeys(x.fields.Keys), SortedKeys(y.fields.Keys));
      Grouping([OBJECT_OPENS], FieldsFrom(x, ks, true), r);
      Grouping([OBJECT_OPENS], FieldsFrom(y, ls, true), t);
      Cancels([OBJECT_OPENS], FieldsFrom(x, ks, true) + r, FieldsFrom(y, ls, true) + t);
      FieldsTell(x, y, ks, ls, true, r, t);
      FieldsAreEqual(x.fields, y.fields, ks);
    } else {
      SimpleTextTells(x, y, r, t);
    }
  }

  lemma Whole(a: seq<Json>, b: seq<Json>, i: nat)
    requires i == |a| == |b| && a[..i] == b[..i]
    ensures a == b
  {
    assert a == a[..i] && b == b[..i];
  }

  lemma OneMore(a: seq<Json>, b: seq<Json>, i: nat)
    requires i < |a| && i < |b| && a[..i] == b[..i] && a[i] == b[i]
    ensures a[..i + 1] == b[..i + 1]
  {
    assert a[..i + 1] == a[..i] + [a[i]] && b[..i + 1] == b[..i] + [b[i]];
  }

  /** From element `i` on, equal texts have equal elements. */
  lemma {:induction false} ItemsTell(x: Json, y: Json, i: nat, r: string, t: string)
    requires x.Arr? && y.Arr? && i <= |x.items| && i <= |y.items| && x.items[..i] == y.items[..i]
    requires Ends(r) && Ends(t) && ItemsFrom(x, i) + r == ItemsFrom(y, i) + t
    ensures x == y && r == t
    decreases x, 0, |x.items| - i
  {
    ItemsBegin(x, i, r);
    ItemsBegin(y, i, t);
    if i == |x.items| {
      Cancels([ARRAY_ENDS], r, t);
      Whole(x.items, y.items, i);
    } else {
      var (r1, t1) := (ItemsFrom(x, i + 1) + r, ItemsFrom(y, i + 1) + t);
      Cancels(Separator(i == 0), Dumps(x.items[i]) + r1, Dumps(y.items[i]) + t1);
      ItemsBegin(x, i + 1, r);
      ItemsBegin(y, i + 1, t);
      TextTells(x.items[i], y.items[i], r1, t1);
      OneMore(x.items, y.items, i);
      ItemsTell(x, y, i + 1, r, t);
    }
  }

  /** Equal texts have equal keys and equal values under them. */
  lemma {:induction false} FieldsTell(x: Json, y: Json, ks: seq<string>, ls: seq<string>, first: bool,
                                      r: string, t: string)
    requires x.Obj? && y.Obj? && (forall k :: k in ks ==> k in x.fields) && (forall k :: k in ls ==> k in y.fields)
    requires Ends(r) && Ends(t) && FieldsFrom(x, ks, first) + r == FieldsFrom(y, ls, first) + t
    ensures ks == ls && r == t && forall k :: k in ks ==> x.fields[k] == y.fields[k]
    decreases x, 0, |ks|
  {
    FieldsBegin(x, ks, first, r);
    FieldsBegin(y, ls, first, t);
    if ks == [] {
      Cancels([OBJECT_ENDS], r, t);
    } else {
      var (k, l) := (ks[0], ls[0]);
      var (r1, t1) := (FieldsFrom(x, ks[1..], false) + r, FieldsFrom(y, ls[1..], false) + t);
      var (r2, t2) := (FieldEnds(x, ks, r), FieldEnds(y, ls, t));
      Cancels(Separator(first), Quoted(k) + (": " + r2), Quoted(l) + (": " + t2));
      QuotedTells(k, l, ": " + r2, ": " + t2);
      Cancels(": ", r2, t2);
      FieldsBegin(x, ks[1..], false, r);
      FieldsBegin(y, ls[1..], false, t);
      TextTells(x.fields[k], y.fields[l], r1, t1);
      FieldsTell(x, y, ks[1..], ls[1..], false, r, t);
      assert ks == [k] + ks[1..] && ls == [l] + ls[1..];
    }
  }

  /** Different values have different texts. */
  lemma DumpsIsInjective(x: Json, y: Json)
    requires Dumps(x) == Dumps(y)
    ensures x == y
  {
    assert Dumps(x) + "" == Dumps(x) && Dumps(y) + "" == Dumps(y);
    TextTells(x, y, "", "");
  }
}

/** What the texts of JSON values say, read by section 7 of RFC 8259: a string's text reads back as the string, an
    array's or an object's has its parts in order.
 */
module JsonReading {
  import opened Wrappers
  import opened Common
  import opened JsonText

  // ---- Reading a string -------------------------------------------------------------------------------

  function HexValue(c: char): Option<nat> {
    if '0' <= c <= '9' then Some(c as int - '0' as int)
    else if 'a' <= c <= 'f' then Some(10 + c as int - 'a' as int)
    else if 'A' <= c <= 'F' then Some(10 + c as int - 'A' as int)
    else None
  }

  /** The number that hexadecimal digits write. */
  function ReadHex(digits: string): Option<nat> {
    if digits == "" then Some(0) else
    var (high, low) := (ReadHex(digits[..|digits| - 1]), HexValue(digits[|digits| - 1]));
    if high.Some? && low.Some? then Some(16 * high.value + low.value) else None
  }

  /** A unit of sixteen bits, `u` and four digits after a backslash. */
  function ReadUnit(s: string): Option<nat> {
    if |s| >= 6 && s[0] == '\\' && s[1] == 'u' then ReadHex(s[2..6]) else None
  }

  function CharAt(code: nat): Option<char> {
    if code < 0xd800 || 0xe000 <= code < 0x11_0000 then Some(code as char) else None
  }

  /** The character a backslash and one more stand for. */
  function ReadShort(c: char): Option<char> {
    match c
    case '\"' => Some('\"')
    case '\\' => Some('\\')
    case '/' => Some('/')
    case 'b' => Some('\U{08}')
    case 'f' => Some('\U{0C}')
    case 'n' => Some('\n')
    case 'r' => Some('\r')
    case 't' => Some('\t')
    case _ => None
  }

  /** The first character of a string's text, and how much of the text it takes; two units of a pair make one. */
  function ReadChar(s: string): Option<(char, nat)> {
    if s == "" || s[0] == '\"' || s[0] < ' ' then None
    else if s[0] != '\\' then Some((s[0], 1))
    else if |s| >= 2 && s[1] != 'u' then
      (match ReadShort(s[1]) case None => None case Some(c) => Some((c, 2)))
    else
      var unit := ReadUnit(s);
      if unit.None? then None
      else if 0xd800 <= unit.value < 0xdc00 then
        var second := ReadUnit(s[6..]);
        if second.None? || !(0xdc00 <= second.value < 0xe000) then None else
        (match CharAt(0x1_0000 + (unit.value - 0xd800) * 0x400 + (second.value - 0xdc00))
         case None => None
         case Some(c) => Some((c, 12)))
      else (match CharAt(unit.value) case None => None case Some(c) => Some((c, 6)))
  }

  /** A string up to its closing quote, and what follows. */
  function ReadString(s: string): Option<(string, string)>
    decreases |s|
  {
    if s == "" then None
    else if s[0] == '\"' then Some(("", s[1..]))
    else
      var c := ReadChar(s);
      if c.None? || c.value.1 == 0 || c.value.1 > |s| then None else
      (match ReadString(s[c.value.1..])
       case None => None
       case Some(read) => Some(([c.value.0] + read.0, read.1)))
  }

  lemma HexDigitReads(n: nat)
    requires n < 16
    ensures HexValue(HEX_DIGITS[n]) == Some(n)
  {
  }

  lemma {:induction false} HexReads(n: nat, digits: nat)
    requires n < Limit(digits)
    ensures |Hex(n, digits)| == digits && ReadHex(Hex(n, digits)) == Some(n)
  {
    if digits > 0 {
      HexReads(n / 16, digits - 1);
      HexDigitReads(n % 16);
      assert Hex(n, digits)[..digits - 1] == Hex(n / 16, digits - 1);
    }
  }

  lemma UnitReads(n: nat, r: string)
    requires n < 0x1_0000
    ensures |Unit(n)| == 6 && ReadUnit(Unit(n) + r) == Some(n) && (Unit(n) + r)[6..] == r
    ensures (Unit(n) + r)[0] == '\\' && (Unit(n) + r)[1] == 'u'
  {
    assert Limit(4) == 0x1_0000;
    HexReads(n, 4);
    assert (Unit(n) + r)[2..6] == Hex(n, 4);
  }

  lemma ShortReads(c: char)
    requires Letter(c) != ' '
    ensures Letter(c) != 'u' && ReadShort(Letter(c)) == Some(c)
  {
  }

  lemma PairReads(c: char)
    requires c as int >= 0x1_0000
    ensures var (first, second) := (FirstUnit(c), SecondUnit(c));
            && 0xd800 <= first < 0xdc00 <= second < 0xe000
            && 0x1_0000 + (first - 0xd800) * 0x400 + (second - 0xdc00) == c as int
  {
  }

  lemma UnitsRead(c: char, r: string)
    requires TakesUnits(c)
    ensures var n := |Escape(c)|; n > 0 && ReadChar(Escape(c) + r) == Some((c, n)) && (Escape(c) + r)[n..] == r
  {
    UnitsAre(c, r);
    if c as int < 0x1_0000 {
      UnitReads(FirstUnit(c), r);
    } else {
      PairReads(c);
      UnitReads(SecondUnit(c), r);
      UnitReads(FirstUnit(c), Unit(SecondUnit(c)) + r);
    }
  }

  lemma CharReads(c: char, r: string)
    ensures var n := |Escape(c)|; n > 0 && ReadChar(Escape(c) + r) == Some((c, n)) && (Escape(c) + r)[n..] == r
    ensures (Escape(c) + r)[0] != '\"'
  {
    EscapeBegins(c, r);
    if TakesUnits(c) {
      UnitsRead(c, r);
    } else if !IsPlain(c) {
      ShortReads(c);
    }
  }

  lemma ReadsOn(t: string, c: char, n: nat, s: string, r: string)
    requires t != "" && t[0] != '\"' && ReadChar(t) == Some((c, n)) && 0 < n <= |t|
    requires ReadString(t[n..]) == Some((s, r))
    ensures ReadString(t) == Some(([c] + s, r))
  {
  }

  lemma {:induction false} EscapedReads(s: string, end: string)
    requires end != "" && end[0] == '\"'
    ensures ReadString(Escaped(s) + end) == Some((s, end[1..]))
    decreases |s|
  {
    if s == "" {
      assert Escaped(s) + end == end;
    } else {
      var rest := Escaped(s[1..]) + end;
      EscapedReads(s[1..], end);
      CharReads(s[0], rest);
      Grouping(Escape(s[0]), Escaped(s[1..]), end);
      ReadsOn(Escape(s[0]) + rest, s[0], |Escape(s[0])|, s[1..], end[1..]);
      assert [s[0]] + s[1..] == s;
    }
  }

  lemma Between(q: string, e: string, r: string)
    ensures (q + e + q) + r == q + (e + (q + r))
  {
  }

  lemma Tail(q: char, r: string)
    ensures ([q] + r)[1..] == r
  {
  }

  /** Whatever characters it has, the text of a string reads back as the string, and ends at its quote. */
  lemma QuotedReads(s: string, r: string)
    ensures var text := Quoted(s) + r; text[0] == '\"' && ReadString(text[1..]) == Some((s, r))
  {
    var end := [QUOTE] + r;
    Between([QUOTE], Escaped(s), r);
    Tail(QUOTE, Escaped(s) + end);
    Tail(QUOTE, r);
    EscapedReads(s, end);
  }

  // ---- The parts of a value ---------------------------------------------------------------------------

  /** The texts with a comma and a blank between them. */
  function Listed(texts: seq<string>): string {
    if texts == [] then ""
    else if |texts| == 1 then texts[0]
    else texts[0] + ", " + Listed(texts[1..])
  }

  /** The order of Unicode texts: the first character that differs decides, and a beginning comes first. */
  ghost predicate Precedes(a: string, b: string) {
    || (|a| <= |b| && b[..|a|] == a)
    || exists i :: 0 <= i < |a| && i < |b| && a[..i] == b[..i] && a[i] < b[i]
  }

  lemma {:induction false} BeforeIsPrecedes(a: string, b: string)
    requires Before(a, b)
    ensures Precedes(a, b)
  {
    if a != "" && a[0] == b[0] {
      var (x, y) := (a[1..], b[1..]);
      BeforeIsPrecedes(x, y);
      if |x| <= |y| && y[..|x|] == x {
        assert b[..|a|] == [b[0]] + y[..|x|] == a;
      } else {
        var i :| 0 <= i < |x| && i < |y| && x[..i] == y[..i] && x[i] < y[i];
        assert a[..i + 1] == [a[0]] + x[..i] == b[..i + 1] && a[i + 1] < b[i + 1];
      }
    } else if a != "" {
      assert a[..0] == b[..0] && a[0] < b[0];
    }
  }

  ghost predicate InOrder(sorted: seq<string>) {
    forall i, j :: 0 <= i < j < |sorted| ==> Precedes(sorted[i], sorted[j]) && sorted[i] != sorted[j]
  }

  lemma OneInFront(first: string, sorted: seq<string>)
    requires InOrder(sorted) && forall k :: k in sorted ==> Precedes(first, k) && first != k
    ensures InOrder([first] + sorted)
  {
    var all := [first] + sorted;
    forall i, j | 0 <= i < j < |all| ensures Precedes(all[i], all[j]) && all[i] != all[j] {
      assert all[j] == sorted[j - 1] && all[j] in sorted;
      assert i > 0 ==> all[i] == sorted[i - 1];
    }
  }

  /** Every key once, in order. */
  lemma {:induction false} KeysAreInOrder(keys: set<string>)
    ensures InOrder(SortedKeys(keys)) && forall k :: k in SortedKeys(keys) <==> k in keys
  {
    if keys != {} {
      var rest := keys - {First(keys)};
      KeysAreInOrder(rest);
      forall k | k in SortedKeys(rest) ensures Precedes(First(keys), k) && First(keys) != k {
        BeforeIsPrecedes(First(keys), k);
      }
      OneInFront(First(keys), SortedKeys(rest));
    }
  }

  function Texts(items: seq<Json>): (texts: seq<string>)
    ensures |texts| == |items|
  {
    seq(|items|, i requires 0 <= i < |items| => Dumps(items[i]))
  }

  function Entries(fields: map<string, Json>, keys: seq<string>): (texts: seq<string>)
    requires forall k :: k in keys ==> k in fields
    ensures |texts| == |keys|
  {
    seq(|keys|, i requires 0 <= i < |keys| => Quoted(keys[i]) + ": " + Dumps(fields[keys[i]]))
  }

  lemma ListedInTwo(texts: seq<string>)
    requires texts != []
    ensures Listed(texts) == if |texts| == 1 then texts[0] else texts[0] + ", " + Listed(texts[1..])
  {
  }

  lemma LastPart(s: string, d: string, e: string)
    ensures s + d + e == s + (d + e)
  {
  }

  lemma NextPart(s: string, d: string, c: string, l: string, e: string)
    ensures (s + d) + (c + (l + e)) == s + ((d + c + l) + e)
  {
  }

  lemma TextsOfRest(x: Json, i: nat)
    requires x.Arr? && i < |x.items|
    ensures Texts(x.items)[i..] != [] && Texts(x.items)[i..][0] == Dumps(x.items[i])
    ensures Texts(x.items)[i..][1..] == Texts(x.items)[i + 1..]
    ensures |Texts(x.items)[i..]| == |x.items| - i
  {
  }

  lemma {:induction false} ItemsAreListed(x: Json, i: nat)
    requires x.Arr? && i < |x.items|
    ensures ItemsFrom(x, i) == Separator(i == 0) + (Listed(Texts(x.items)[i..]) + [ARRAY_ENDS])
    decreases |x.items| - i
  {
    var text := Dumps(x.items[i]);
    TextsOfRest(x, i);
    ListedInTwo(Texts(x.items)[i..]);
    if i + 1 < |x.items| {
      ItemsAreListed(x, i + 1);
      NextPart(Separator(i == 0), text, Separator(false), Listed(Texts(x.items)[i + 1..]), [ARRAY_ENDS]);
    } else {
      LastPart(Separator(i == 0), text, [ARRAY_ENDS]);
    }
  }

  lemma Entry(s: string, q: string, c: string, d: string)
    ensures s + q + c + d == s + (q + c + d)
  {
  }

  lemma EntriesOfRest(fields: map<string, Json>, keys: seq<string>)
    requires keys != [] && forall k :: k in keys ==> k in fields
    ensures Entries(fields, keys)[0] == Quoted(keys[0]) + ": " + Dumps(fields[keys[0]])
    ensures Entries(fields, keys)[1..] == Entries(fields, keys[1..])
  {
  }

  lemma {:induction false} FieldsAreListed(x: Json, keys: seq<string>, first: bool)
    requires x.Obj? && keys != [] && forall k :: k in keys ==> k in x.fields
    ensures FieldsFrom(x, keys, first) == Separator(first) + (Listed(Entries(x.fields, keys)) + [OBJECT_ENDS])
    decreases |keys|
  {
    EntriesOfRest(x.fields, keys);
    var entry := Entries(x.fields, keys)[0];
    ListedInTwo(Entries(x.fields, keys));
    Entry(Separator(first), Quoted(keys[0]), ": ", Dumps(x.fields[keys[0]]));
    assert FieldsFrom(x, keys, first) == (Separator(first) + entry) + FieldsFrom(x, keys[1..], false);
    if |keys| > 1 {
      FieldsAreListed(x, keys[1..], false);
      NextPart(Separator(first), entry, Separator(false), Listed(Entries(x.fields, keys[1..])), [OBJECT_ENDS]);
    } else {
      LastPart(Separator(first), entry, [OBJECT_ENDS]);
    }
  }

  lemma Whole(a: string, b: string)
    ensures "" + b == b && a + ("" + b) == a + b
  {
  }

  /** The elements' texts, in order, between brackets. */
  lemma ArrayIsListed(items: seq<Json>)
    ensures Dumps(Arr(items)) == "[" + (Listed(Texts(items)) + "]")
  {
    assert [ARRAY_OPENS] == "[" && [ARRAY_ENDS] == "]";
    if items != [] {
      ItemsAreListed(Arr(items), 0);
      assert Texts(items)[0..] == Texts(items);
      Whole([ARRAY_OPENS], Listed(Texts(items)) + [ARRAY_ENDS]);
    } else {
      Whole([ARRAY_OPENS], [ARRAY_ENDS]);
    }
  }

  /** The fields' texts, in the order of their keys, between braces. */
  lemma ObjectIsListed(fields: map<string, Json>)
    ensures var keys := SortedKeys(fields.Keys);
            && InOrder(keys) && (forall k :: k in keys <==> k in fields)
            && Dumps(Obj(fields)) == "{" + (Listed(Entries(fields, keys)) + "}")
  {
    assert [OBJECT_OPENS] == "{" && [OBJECT_ENDS] == "}";
    var keys := SortedKeys(fields.Keys);
    KeysAreInOrder(fields.Keys);
    if keys != [] {
      FieldsAreListed(Obj(fields), keys, true);
      Whole([OBJECT_OPENS], Listed(Entries(fields, keys)) + [OBJECT_ENDS]);
    } else {
      Whole([OBJECT_OPENS], [OBJECT_ENDS]);
    }
  }

  /** A value without parts is written as its own text. */
  lemma SimpleTexts(x: Json, r: string)
    ensures x.Null? ==> Dumps(x) == "null"
    ensures x.Bool? ==> Dumps(x) == if x.truth then "true" else "false"
    ensures x.Number? ==> Dumps(x) == x.numeral
    ensures x.Str? ==> var text := Dumps(x) + r; text[0] == '\"' && ReadString(text[1..]) == Some((x.text, r))
  {
    if x.Str? {
      QuotedReads(x.text, r);
    }
  }
}

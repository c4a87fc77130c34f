/** JSON values, the compact printer with sorted keys, and a parser that inverts it. */
module Json {
  import opened Wrappers
  import opened Text

  datatype Json =
    | Null
    | Bool(b: bool)
    | Int(n: int)
    | Float(r: real)
    | NonFinite
    | Str(s: string)
    | Arr(items: seq<Json>)
    | Obj(fields: map<string, Json>)

  /******* Integers *******/

  function DigitChar(d: nat): char
    requires d < 10
  {
    '0' + d as char
  }

  predicate IsDigit(c: char)
  {
    '0' <= c <= '9'
  }

  function Digits(n: nat): (s: string)
    ensures |s| > 0 && forall i :: 0 <= i < |s| ==> IsDigit(s[i])
  {
    if n < 10 then [DigitChar(n)] else Digits(n / 10) + [DigitChar(n % 10)]
  }

  function IntText(n: int): string
  {
    if n < 0 then "-" + Digits(-n) else Digits(n)
  }

  predicate AllDigits(s: string)
  {
    |s| > 0 && forall i :: 0 <= i < |s| ==> IsDigit(s[i])
  }

  function NatOf(s: string): nat
    requires forall i :: 0 <= i < |s| ==> IsDigit(s[i])
  {
    if s == [] then 0
    else
      assert IsDigit(s[|s| - 1]);
      10 * NatOf(s[..|s| - 1]) + (s[|s| - 1] - '0') as nat
  }

  lemma {:induction false} NatOfDigits(n: nat)
    ensures NatOf(Digits(n)) == n
  {
    var s := Digits(n);
    if n < 10 {
      assert s[..0] == [];
    } else {
      NatOfDigits(n / 10);
      assert s[..|s| - 1] == Digits(n / 10);
    }
  }

  /** An integer token: optional minus, then digits. */
  function ReadInt(s: string): Option<int>
  {
    if AllDigits(s) then Some(NatOf(s))
    else if |s| > 1 && s[0] == '-' && AllDigits(s[1..]) then
      var n: int := NatOf(s[1..]);
      Some(-n)
    else None
  }

  lemma ReadIntText(n: int)
    ensures ReadInt(IntText(n)) == Some(n)
  {
    if n < 0 {
      NatOfDigits(-n);
      assert IntText(n)[1..] == Digits(-n);
      assert !IsDigit(IntText(n)[0]);
    } else {
      NatOfDigits(n);
    }
  }

  /******* Floats *******/

  /** The text Python's `repr` gives to each finite float that is not integral.  A finite table, so
      that "injective, and never an integer token" is a satisfiable assumption. */
  type FloatTable = map<real, string>

  predicate NumChar(c: char)
  {
    IsDigit(c) || c == '-' || c == '+' || c == '.' || c == 'e'
  }

  predicate NumToken(s: string)
  {
    |s| > 0 && (IsDigit(s[0]) || s[0] == '-') && forall i :: 0 <= i < |s| ==> NumChar(s[i])
  }

  ghost predicate FaithfulFloats(ft: FloatTable)
  {
    && (forall r :: r in ft ==> NumToken(ft[r]) && ReadInt(ft[r]).None?)
    && (forall r, q :: r in ft && q in ft && ft[r] == ft[q] ==> r == q)
  }

  ghost function ReadFloat(ft: FloatTable, s: string): Option<real>
  {
    if r :| r in ft && ft[r] == s then Some(r) else None
  }

  /******* Strings: section 7 of RFC 8259 *******/

  function HexDigit(d: nat): char
    requires d < 16
  {
    if d < 10 then '0' + d as char else 'a' + (d - 10) as char
  }

  function HexValue(c: char): Option<nat>
  {
    if '0' <= c <= '9' then Some((c - '0') as nat)
    else if 'a' <= c <= 'f' then Some((c - 'a') as nat + 10)
    else if 'A' <= c <= 'F' then Some((c - 'A') as nat + 10)
    else None
  }

  /** Quotation mark, reverse solidus and the control characters are escaped; nothing else is. */
  function Escape(c: char): string
  {
    if c == '"' then "\\\""
    else if c == '\\' then "\\\\"
    else if c == '\n' then "\\n"
    else if c == '\r' then "\\r"
    else if c == '\t' then "\\t"
    else if c == 8 as char then "\\b"
    else if c == 12 as char then "\\f"
    else if c < ' ' then "\\u00" + [HexDigit(c as nat / 16), HexDigit(c as nat % 16)]
    else [c]
  }

  function EscapeAll(s: string): string
  {
    if s == [] then [] else Escape(s[0]) + EscapeAll(s[1..])
  }

  function Quote(s: string): string
  {
    "\"" + EscapeAll(s) + "\""
  }

  /** The character a two-character escape stands for. */
  function ShortEscape(c: char): Option<char>
  {
    if c == '"' || c == '\\' || c == '/' then Some(c)
    else if c == 'n' then Some('\n')
    else if c == 'r' then Some('\r')
    else if c == 't' then Some('\t')
    else if c == 'b' then Some(8 as char)
    else if c == 'f' then Some(12 as char)
    else None
  }

  function FourHex(a: char, b: char, c: char, d: char): Option<nat>
  {
    var x, y, z, w := HexValue(a), HexValue(b), HexValue(c), HexValue(d);
    if x.None? || y.None? || z.None? || w.None? then None
    else Some(4096 * x.value + 256 * y.value + 16 * z.value + w.value)
  }

  /** One possibly escaped character of a string, and what follows it.  Surrogate escapes are not read. */
  function ReadChar(t: string): (r: Option<(char, string)>)
    ensures r.Some? ==> |r.value.1| < |t|
  {
    if t == [] || t[0] < ' ' || t[0] == '"' then None
    else if t[0] != '\\' then Some((t[0], t[1..]))
    else if |t| < 2 then None
    else if t[1] != 'u' then
      var c := ShortEscape(t[1]);
      if c.None? then None else Some((c.value, t[2..]))
    else if |t| < 6 then None
    else
      var n := FourHex(t[2], t[3], t[4], t[5]);
      if n.None? || 0xD800 <= n.value then None else Some((n.value as char, t[6..]))
  }

  /** The characters up to the closing quotation mark. */
  function ReadChars(t: string): (r: Option<(string, string)>)
    ensures r.Some? ==> |r.value.1| < |t|
    decreases |t|
  {
    if t != [] && t[0] == '"' then Some(([], t[1..]))
    else
      var c := ReadChar(t);
      if c.None? then None
      else
        var more := ReadChars(c.value.1);
        if more.None? then None else Some(([c.value.0] + more.value.0, more.value.1))
  }

  lemma EscapeShape(c: char)
    ensures |Escape(c)| > 0 && Escape(c)[0] != '"' && Escape(c)[0] >= ' '
  {
  }

  lemma ReadEscaped(c: char, rest: string)
    ensures ReadChar(Escape(c) + rest) == Some((c, rest))
  {
    var t := Escape(c) + rest;
    if Escape(c) == [c] {
      assert t[1..] == rest;
    } else if |Escape(c)| == 2 {
      assert t[2..] == rest;
    } else {
      assert t[6..] == rest;
      var hi, lo := c as nat / 16, c as nat % 16;
      assert HexValue(HexDigit(hi)) == Some(hi) && HexValue(HexDigit(lo)) == Some(lo);
      assert FourHex(t[2], t[3], t[4], t[5]) == Some(16 * hi + lo);
    }
  }

  /** Reading back an escaped string gives the string, whatever characters it has. */
  lemma {:induction false} ReadEscapedAll(s: string, rest: string)
    ensures ReadChars(EscapeAll(s) + "\"" + rest) == Some((s, rest))
    decreases |s|
  {
    var t := EscapeAll(s) + "\"" + rest;
    if s == [] {
      assert t[1..] == rest;
    } else {
      var tail := EscapeAll(s[1..]) + "\"" + rest;
      assert t == Escape(s[0]) + tail;
      EscapeShape(s[0]);
      ReadEscaped(s[0], tail);
      ReadEscapedAll(s[1..], rest);
      assert s == [s[0]] + s[1..];
    }
  }

  /******* Printing *******/

  /** `json.dumps(v, sort_keys=True, separators=(",", ":"), ensure_ascii=False)`. */
  ghost function Print(v: Json, ft: FloatTable): string
    decreases v, 1, 0
  {
    match v
    case Null => "null"
    case Bool(b) => if b then "true" else "false"
    case Int(n) => IntText(n)
    case Float(r) => if r in ft then ft[r] else "null"
    case NonFinite => "null"
    case Str(s) => Quote(s)
    case Arr(items) => "[" + PrintItems(v, 0, ft) + "]"
    case Obj(fields) => "{" + PrintMembers(v, Sorted(fields.Keys), ft) + "}"
  }

  /** The elements from index i on, separated by commas. */
  ghost function PrintItems(v: Json, i: nat, ft: FloatTable): string
    requires v.Arr? && i <= |v.items|
    decreases v, 0, |v.items| - i
  {
    if i == |v.items| then ""
    else if i + 1 == |v.items| then Print(v.items[i], ft)
    else Print(v.items[i], ft) + "," + PrintItems(v, i + 1, ft)
  }

  /** The members with the given keys, in that order. */
  ghost function PrintMembers(v: Json, ks: seq<string>, ft: FloatTable): string
    requires v.Obj? && forall i :: 0 <= i < |ks| ==> ks[i] in v.fields
    decreases v, 0, |ks|
  {
    if ks == [] then ""
    else
      var member := Quote(ks[0]) + ":" + Print(v.fields[ks[0]], ft);
      if |ks| == 1 then member else member + "," + PrintMembers(v, ks[1..], ft)
  }

  /** Values the printer is meant for: every number is finite and has a text. */
  ghost predicate Printable(v: Json, ft: FloatTable)
  {
    match v
    case Float(r) => r in ft
    case NonFinite => false
    case Arr(items) => forall i :: 0 <= i < |items| ==> Printable(items[i], ft)
    case Obj(fields) => forall k :: k in fields ==> Printable(fields[k], ft)
    case _ => true
  }

  /******* Parsing *******/

  function NumPrefix(t: string): (n: nat)
    ensures n <= |t| && forall i :: 0 <= i < n ==> NumChar(t[i])
    ensures n < |t| ==> !NumChar(t[n])
  {
    if t == [] || !NumChar(t[0]) then 0 else 1 + NumPrefix(t[1..])
  }

  ghost function ReadNumber(t: string, ft: FloatTable): (r: Option<(Json, string)>)
    ensures r.Some? ==> |r.value.1| < |t|
  {
    var n := NumPrefix(t);
    var token := t[..n];
    if n == 0 then None
    else if ReadInt(token).Some? then Some((Int(ReadInt(token).value), t[n..]))
    else if ReadFloat(ft, token).Some? then Some((Float(ReadFloat(ft, token).value), t[n..]))
    else None
  }

  ghost function Parse(t: string, ft: FloatTable): (r: Option<(Json, string)>)
    ensures r.Some? ==> |r.value.1| < |t|
    decreases |t|, 1
  {
    if t == [] then None
    else if t[0] == '"' then
      var s := ReadChars(t[1..]);
      if s.None? then None else Some((Str(s.value.0), s.value.1))
    else if t[0] == '[' then
      if |t| > 1 && t[1] == ']' then Some((Arr([]), t[2..]))
      else
        var a := ParseItems(t[1..], ft);
        if a.None? then None else Some((Arr(a.value.0), a.value.1))
    else if t[0] == '{' then
      if |t| > 1 && t[1] == '}' then Some((Obj(map[]), t[2..]))
      else
        var o := ParseMembers(t[1..], ft);
        if o.None? then None else Some((Obj(o.value.0), o.value.1))
    else if |t| >= 4 && t[..4] == "null" then Some((Null, t[4..]))
    else if |t| >= 4 && t[..4] == "true" then Some((Bool(true), t[4..]))
    else if |t| >= 5 && t[..5] == "false" then Some((Bool(false), t[5..]))
    else ReadNumber(t, ft)
  }

  /** At least one element, up to the closing bracket. */
  ghost function ParseItems(t: string, ft: FloatTable): (r: Option<(seq<Json>, string)>)
    ensures r.Some? ==> |r.value.1| < |t|
    decreases |t|, 2
  {
    var v := Parse(t, ft);
    if v.None? || v.value.1 == [] then None
    else if v.value.1[0] == ']' then Some(([v.value.0], v.value.1[1..]))
    else if v.value.1[0] != ',' then None
    else
      var more := ParseItems(v.value.1[1..], ft);
      if more.None? then None else Some(([v.value.0] + more.value.0, more.value.1))
  }

  /** At least one member, up to the closing brace; a later duplicate wins. */
  ghost function ParseMembers(t: string, ft: FloatTable): (r: Option<(map<string, Json>, string)>)
    ensures r.Some? ==> |r.value.1| < |t|
    decreases |t|, 2
  {
    if t == [] || t[0] != '"' then None
    else
      var k := ReadChars(t[1..]);
      if k.None? || k.value.1 == [] || k.value.1[0] != ':' then None
      else
        var v := Parse(k.value.1[1..], ft);
        if v.None? || v.value.1 == [] then None
        else if v.value.1[0] == '}' then Some((map[k.value.0 := v.value.0], v.value.1[1..]))
        else if v.value.1[0] != ',' then None
        else
          var more := ParseMembers(v.value.1[1..], ft);
          if more.None? then None
          else Some((map[k.value.0 := v.value.0] + more.value.0, more.value.1))
  }

  /******* The parser inverts the printer *******/

  /** What may follow a printed value: the end, or a character that cannot extend a number. */
  predicate Closed(rest: string)
  {
    rest == [] || !NumChar(rest[0])
  }

  lemma {:induction false} PrefixOfToken(token: string, rest: string)
    requires (forall i :: 0 <= i < |token| ==> NumChar(token[i])) && Closed(rest)
    ensures NumPrefix(token + rest) == |token|
  {
    if token != [] {
      assert (token + rest)[1..] == token[1..] + rest;
      PrefixOfToken(token[1..], rest);
    } else {
      assert token + rest == rest;
    }
  }

  lemma ParseNumber(token: string, rest: string, ft: FloatTable)
    requires NumToken(token) && Closed(rest)
    ensures Parse(token + rest, ft) == ReadNumber(token + rest, ft)
    ensures NumPrefix(token + rest) == |token| && (token + rest)[..|token|] == token && (token + rest)[|token|..] == rest
  {
    var t := token + rest;
    PrefixOfToken(token, rest);
    assert t[0] == token[0];
    assert |t| >= 4 ==> t[..4][0] == t[0];
    assert |t| >= 5 ==> t[..5][0] == t[0];
  }

  lemma ParseFloat(r: real, rest: string, ft: FloatTable)
    requires FaithfulFloats(ft) && r in ft && Closed(rest)
    ensures Parse(ft[r] + rest, ft) == Some((Float(r), rest))
  {
    ParseNumber(ft[r], rest, ft);
    assert ReadFloat(ft, ft[r]) == Some(r);
  }

  lemma IntTextIsToken(n: int)
    ensures NumToken(IntText(n))
  {
  }

  lemma ParseWord(v: Json, rest: string, ft: FloatTable)
    requires v.Null? || v.Bool?
    ensures Parse(Print(v, ft) + rest, ft) == Some((v, rest))
  {
    var t := Print(v, ft) + rest;
    if v.Null? {
      assert t[..4] == "null" && t[4..] == rest;
    } else if v.b {
      assert t[..4] == "true" && t[4..] == rest;
    } else {
      assert t[..5] == "false" && t[5..] == rest;
      assert t[..4] == "fals";
    }
  }

  /** Parsing a printed value gives the value back, and leaves exactly what followed it. */
  lemma {:induction false} ParsePrint(v: Json, rest: string, ft: FloatTable)
    requires FaithfulFloats(ft) && Printable(v, ft) && Closed(rest)
    ensures Parse(Print(v, ft) + rest, ft) == Some((v, rest))
    decreases v, 1, 0
  {
    var t := Print(v, ft) + rest;
    match v
    case Null => ParseWord(v, rest, ft);
    case Bool(b) => ParseWord(v, rest, ft);
    case Int(n) =>
      IntTextIsToken(n);
      ParseNumber(IntText(n), rest, ft);
      ReadIntText(n);
    case Float(r) => ParseFloat(r, rest, ft);
    case Str(s) =>
      assert t[1..] == EscapeAll(s) + "\"" + rest;
      ReadEscapedAll(s, rest);
    case Arr(items) => ParsePrintArray(v, rest, ft);
    case Obj(fields) => ParsePrintObject(v, rest, ft);
  }

  /** A printed value starts with a character that tells arrays and objects apart from their ends. */
  lemma PrintStart(v: Json, ft: FloatTable)
    requires FaithfulFloats(ft) && Printable(v, ft)
    ensures |Print(v, ft)| > 0 && Print(v, ft)[0] != ']' && Print(v, ft)[0] != '}'
  {
    match v
    case Int(n) => IntTextIsToken(n);
    case _ =>
  }

  lemma {:induction false} ParsePrintArray(v: Json, rest: string, ft: FloatTable)
    requires v.Arr? && FaithfulFloats(ft) && Printable(v, ft) && Closed(rest)
    ensures Parse(Print(v, ft) + rest, ft) == Some((v, rest))
    decreases v, 0, |v.items| + 1
  {
    var t := Print(v, ft) + rest;
    assert t[1..] == PrintItems(v, 0, ft) + "]" + rest;
    if v.items == [] {
      assert t[2..] == rest;
    } else {
      PrintStart(v.items[0], ft);
      assert t[1] == PrintItems(v, 0, ft)[0];
      ParsePrintItems(v, 0, rest, ft);
      assert v.items[0..] == v.items;
    }
  }

  lemma {:induction false} ParsePrintItems(v: Json, i: nat, rest: string, ft: FloatTable)
    requires v.Arr? && i < |v.items| && FaithfulFloats(ft) && Printable(v, ft)
    ensures ParseItems(PrintItems(v, i, ft) + "]" + rest, ft) == Some((v.items[i..], rest))
    decreases v, 0, |v.items| - i
  {
    hide Parse;
    hide ParseItems;
    hide Print;
    if i + 1 == |v.items| {
      ReadLastItem(v, i, rest, ft);
      assert PrintItems(v, i, ft) == Print(v.items[i], ft);
      assert v.items[i..] == [v.items[i]];
    } else {
      var others := PrintItems(v, i + 1, ft);
      ParsePrintItems(v, i + 1, rest, ft);
      ReadMoreItem(v, i, others + "]" + rest, v.items[i + 1..], rest, ft);
      RegroupItems(Print(v.items[i], ft), others, rest);
      assert v.items[i..] == [v.items[i]] + v.items[i + 1..];
    }
  }

  lemma RegroupItems(a: string, b: string, c: string)
    ensures a + "," + b + "]" + c == a + "," + (b + "]" + c)
  {
  }

  lemma {:induction false} ReadLastItem(v: Json, i: nat, rest: string, ft: FloatTable)
    requires v.Arr? && i < |v.items| && FaithfulFloats(ft) && Printable(v, ft)
    ensures ParseItems(Print(v.items[i], ft) + "]" + rest, ft) == Some(([v.items[i]], rest))
    decreases v, 0, 0
  {
    hide Parse;
    hide ParseItems;
    hide Print;
    var first, tail := Print(v.items[i], ft), "]" + rest;
    ParsePrint(v.items[i], tail, ft);
    assert first + "]" + rest == first + tail;
    ParseLastItem(first + tail, v.items[i], rest, ft);
  }

  lemma {:induction false} ReadMoreItem(v: Json, i: nat, more: string, vs: seq<Json>, rest: string, ft: FloatTable)
    requires v.Arr? && i < |v.items| && FaithfulFloats(ft) && Printable(v, ft)
    requires ParseItems(more, ft) == Some((vs, rest))
    ensures ParseItems(Print(v.items[i], ft) + "," + more, ft) == Some(([v.items[i]] + vs, rest))
    decreases v, 0, 0
  {
    hide Parse;
    hide ParseItems;
    hide Print;
    var first, tail := Print(v.items[i], ft), "," + more;
    ParsePrint(v.items[i], tail, ft);
    assert first + "," + more == first + tail;
    ParseMoreItems(first + tail, v.items[i], more, vs, rest, ft);
  }

  lemma ParseLastItem(t: string, v: Json, rest: string, ft: FloatTable)
    requires Parse(t, ft) == Some((v, "]" + rest))
    ensures ParseItems(t, ft) == Some(([v], rest))
  {
    assert ("]" + rest)[1..] == rest;
  }

  lemma ParseMoreItems(t: string, v: Json, more: string, vs: seq<Json>, rest: string, ft: FloatTable)
    requires Parse(t, ft) == Some((v, "," + more)) && ParseItems(more, ft) == Some((vs, rest))
    ensures ParseItems(t, ft) == Some(([v] + vs, rest))
  {
    assert ("," + more)[1..] == more;
  }

  lemma {:induction false} ParsePrintObject(v: Json, rest: string, ft: FloatTable)
    requires v.Obj? && FaithfulFloats(ft) && Printable(v, ft) && Closed(rest)
    ensures Parse(Print(v, ft) + rest, ft) == Some((v, rest))
    decreases v, 0, |v.fields| + 1, 1
  {
    var ks := Sorted(v.fields.Keys);
    if ks == [] {
      assert v.fields == map[] by { assert v.fields.Keys == Elements(ks) == {}; }
      ParseEmptyObject(rest, ft);
      assert Print(v, ft) == "{" + PrintMembers(v, ks, ft) + "}" == "{}";
    } else {
      ParsePrintNonEmpty(v, ks, rest, ft);
    }
  }

  lemma ParseEmptyObject(rest: string, ft: FloatTable)
    ensures Parse("{}" + rest, ft) == Some((Obj(map[]), rest))
  {
    assert ("{}" + rest)[2..] == rest;
  }

  lemma {:induction false} ParsePrintNonEmpty(v: Json, ks: seq<string>, rest: string, ft: FloatTable)
    requires v.Obj? && ks == Sorted(v.fields.Keys) && ks != [] && FaithfulFloats(ft) && Printable(v, ft)
    ensures Parse("{" + PrintMembers(v, ks, ft) + "}" + rest, ft) == Some((v, rest))
    decreases v, 0, |v.fields| + 1, 0
  {
    hide Parse;
    hide ParseMembers;
    hide Print;
    SortedSize(v.fields.Keys);
    AscendingDistinct(ks);
    ParsePrintMembers(v, ks, rest, ft);
    assert Members(v.fields, ks) == v.fields;
    MembersStart(v, ks, rest, ft);
    ParseObject(PrintMembers(v, ks, ft) + "}" + rest, v.fields, rest, ft);
    RegroupObject(PrintMembers(v, ks, ft), rest);
  }

  lemma RegroupObject(a: string, b: string)
    ensures "{" + a + "}" + b == "{" + (a + "}" + b)
  {
  }

  lemma MembersStart(v: Json, ks: seq<string>, rest: string, ft: FloatTable)
    requires v.Obj? && ks != [] && forall i :: 0 <= i < |ks| ==> ks[i] in v.fields
    ensures var body := PrintMembers(v, ks, ft) + "}" + rest; body != [] && body[0] == '"'
  {
    assert PrintMembers(v, ks, ft)[0] == Quote(ks[0])[0];
  }

  lemma ParseObject(body: string, m: map<string, Json>, rest: string, ft: FloatTable)
    requires body != [] && body[0] == '"' && ParseMembers(body, ft) == Some((m, rest))
    ensures Parse("{" + body, ft) == Some((Obj(m), rest))
  {
    var t := "{" + body;
    assert t[1..] == body && t[1] == body[0];
  }

  lemma {:induction false} SortedSize(ks: set<string>)
    ensures |Sorted(ks)| == |ks|
    decreases |ks|
  {
    var s := Sorted(ks);
    AscendingDistinct(s);
    DistinctSize(s);
  }

  lemma {:induction false} DistinctSize(s: seq<string>)
    requires forall i, j :: 0 <= i < j < |s| ==> s[i] != s[j]
    ensures |Elements(s)| == |s|
  {
    if s != [] {
      DistinctSize(s[1..]);
      assert Elements(s) == {s[0]} + Elements(s[1..]) by {
        assert s == [s[0]] + s[1..];
      }
      assert s[0] !in Elements(s[1..]);
    }
  }

  lemma {:induction false} ParsePrintMembers(v: Json, ks: seq<string>, rest: string, ft: FloatTable)
    requires v.Obj? && FaithfulFloats(ft) && Printable(v, ft)
    requires ks != [] && Elements(ks) <= v.fields.Keys && |ks| <= |v.fields|
    requires forall i :: 0 <= i < |ks| ==> ks[i] in v.fields
    requires forall i, j :: 0 <= i < j < |ks| ==> ks[i] != ks[j]
    ensures ParseMembers(PrintMembers(v, ks, ft) + "}" + rest, ft) ==
              Some((Members(v.fields, ks), rest))
    decreases v, 0, |ks|
  {
    hide Parse;
    hide ParseMembers;
    hide Print;
    var k := ks[0];
    var member := Quote(k) + ":" + Print(v.fields[k], ft);
    if |ks| == 1 {
      assert PrintMembers(v, ks, ft) == member;
      ReadLast(v, k, rest, ft);
      MembersOne(v.fields, ks);
    } else {
      var others := PrintMembers(v, ks[1..], ft);
      assert PrintMembers(v, ks, ft) == member + "," + others;
      MembersMore(v.fields, ks);
      ParsePrintMembers(v, ks[1..], rest, ft);
      ReadMore(v, k, others + "}" + rest, Members(v.fields, ks[1..]), rest, ft);
      Regroup(member, others, rest);
    }
  }

  lemma RegroupMember(a: string, b: string, c: string)
    ensures a + ":" + b + "," + c == a + ":" + (b + ("," + c))
  {
  }

  lemma Regroup(a: string, b: string, c: string)
    ensures a + "," + b + "}" + c == a + "," + (b + "}" + c)
  {
  }

  lemma {:induction false} ReadLast(v: Json, k: string, rest: string, ft: FloatTable)
    requires v.Obj? && k in v.fields && FaithfulFloats(ft) && Printable(v, ft)
    ensures ParseMembers(Quote(k) + ":" + Print(v.fields[k], ft) + "}" + rest, ft) == Some((map[k := v.fields[k]], rest))
    decreases v, 0, 0
  {
    hide Parse;
    hide ParseMembers;
    hide Print;
    var value, tail := Print(v.fields[k], ft), "}" + rest;
    var t := Quote(k) + ":" + value + "}" + rest;
    assert t == Quote(k) + ":" + (value + tail);
    MemberStart(k, value + tail, t);
    ParsePrint(v.fields[k], tail, ft);
    ParseLastMember(t, k, v.fields[k], value + tail, rest, ft);
  }

  lemma {:induction false} ReadMore(v: Json, k: string, more: string, m: map<string, Json>, rest: string, ft: FloatTable)
    requires v.Obj? && k in v.fields && FaithfulFloats(ft) && Printable(v, ft)
    requires ParseMembers(more, ft) == Some((m, rest))
    ensures ParseMembers(Quote(k) + ":" + Print(v.fields[k], ft) + "," + more, ft) == Some((map[k := v.fields[k]] + m, rest))
    decreases v, 0, 0
  {
    hide Parse;
    hide ParseMembers;
    hide Print;
    var value, tail := Print(v.fields[k], ft), "," + more;
    var t := Quote(k) + ":" + value + "," + more;
    RegroupMember(Quote(k), value, more);
    MemberStart(k, value + tail, t);
    ParsePrint(v.fields[k], tail, ft);
    ParseMoreMembers(t, k, v.fields[k], value + tail, more, m, rest, ft);
  }

  /** The part of an object that the given keys name. */
  ghost function Members(fields: map<string, Json>, ks: seq<string>): map<string, Json>
  {
    map k | k in Elements(ks) && k in fields :: fields[k]
  }

  lemma MembersOne(fields: map<string, Json>, ks: seq<string>)
    requires |ks| == 1 && ks[0] in fields
    ensures Members(fields, ks) == map[ks[0] := fields[ks[0]]]
  {
    assert ks == [ks[0]];
  }

  lemma MembersMore(fields: map<string, Json>, ks: seq<string>)
    requires |ks| > 0 && ks[0] in fields
    ensures Elements(ks) == {ks[0]} + Elements(ks[1..])
    ensures (forall i, j :: 0 <= i < j < |ks| ==> ks[i] != ks[j]) ==>
              Members(fields, ks) == map[ks[0] := fields[ks[0]]] + Members(fields, ks[1..])
  {
    assert ks == [ks[0]] + ks[1..];
  }

  lemma ParseLastMember(t: string, k: string, v: Json, x: string, rest: string, ft: FloatTable)
    requires t != [] && t[0] == '"' && ReadChars(t[1..]) == Some((k, ":" + x)) && (":" + x)[1..] == x
    requires Parse(x, ft) == Some((v, "}" + rest))
    ensures ParseMembers(t, ft) == Some((map[k := v], rest))
  {
    assert ("}" + rest)[1..] == rest;
  }

  lemma ParseMoreMembers(t: string, k: string, v: Json, x: string, more: string, m: map<string, Json>, rest: string, ft: FloatTable)
    requires t != [] && t[0] == '"' && ReadChars(t[1..]) == Some((k, ":" + x)) && (":" + x)[1..] == x
    requires Parse(x, ft) == Some((v, "," + more)) && ParseMembers(more, ft) == Some((m, rest))
    ensures ParseMembers(t, ft) == Some((map[k := v] + m, rest))
  {
    assert ("," + more)[1..] == more;
  }

  /** The key of a member is read back, up to its colon. */
  lemma MemberStart(k: string, tail: string, t: string)
    requires t == Quote(k) + ":" + tail
    ensures t != [] && t[0] == '"'
    ensures ReadChars(t[1..]) == Some((k, ":" + tail)) && (":" + tail)[1..] == tail
  {
    assert t[1..] == EscapeAll(k) + "\"" + (":" + tail);
    ReadEscapedAll(k, ":" + tail);
  }

  /******* The canonical form of the text *******/

  /** The text of a character in a string: itself unless it is a quotation mark, a reverse solidus or a control
      character; the five short escapes; and for the rest \u with four lower-case digits. */
  lemma EscapeIs(c: char)
    ensures c >= ' ' && c != '"' && c != '\\' ==> Escape(c) == [c]
    ensures Escape('"') == ['\\', '"'] && Escape('\\') == ['\\', '\\']
    ensures Escape('\n') == ['\\', 'n'] && Escape('\r') == ['\\', 'r'] && Escape('\t') == ['\\', 't']
    ensures Escape(8 as char) == ['\\', 'b'] && Escape(12 as char) == ['\\', 'f']
    ensures c < ' ' && c !in {'\n', '\r', '\t', 8 as char, 12 as char} ==>
              && |Escape(c)| == 6 && Escape(c)[..4] == ['\\', 'u', '0', '0']
              && Escape(c)[4] == (if c < 16 as char then '0' else '1')
              && Escape(c)[5] in {'0', '1', '2', '3', '4', '5', '6', '7', '8', '9', 'a', 'b', 'c', 'd', 'e', 'f'}
              && HexValue(Escape(c)[5]) == Some(c as nat % 16)
  {
  }

  /** Integers are written without leading zeros or plus sign. */
  lemma {:induction false} DigitsAreCanonical(n: nat)
    ensures Digits(n)[0] == '0' <==> n == 0
    ensures Digits(n)[0] == '0' ==> |Digits(n)| == 1
  {
    if n >= 10 {
      DigitsAreCanonical(n / 10);
      assert Digits(n)[0] == Digits(n / 10)[0];
    }
  }

  /** Compact separators and the order of two members. */
  lemma PrintIsCompact(v: Json, w: Json, j: string, k: string, ft: FloatTable)
    requires Before(j, k)
    ensures Print(Arr([v, w]), ft) == "[" + Print(v, ft) + "," + Print(w, ft) + "]"
    ensures Print(Obj(map[k := w, j := v]), ft) ==
              "{" + (Quote(j) + ":" + Print(v, ft) + "," + (Quote(k) + ":" + Print(w, ft))) + "}"
  {
    PrintPair(v, w, ft);
    PrintTwoMembers(v, w, j, k, ft);
  }

  lemma PrintPair(v: Json, w: Json, ft: FloatTable)
    ensures Print(Arr([v, w]), ft) == "[" + Print(v, ft) + "," + Print(w, ft) + "]"
  {
    var a := Arr([v, w]);
    assert PrintItems(a, 1, ft) == Print(w, ft);
    assert PrintItems(a, 0, ft) == Print(v, ft) + "," + PrintItems(a, 1, ft);
    assert "[" + (Print(v, ft) + "," + Print(w, ft)) + "]" == "[" + Print(v, ft) + "," + Print(w, ft) + "]";
  }

  lemma SortedPair(j: string, k: string)
    requires Before(j, k)
    ensures Sorted({j, k}) == [j, k]
  {
    BeforeTotal(j, k);
    var s := Sorted({j, k});
    assert Elements([j, k]) == {j, k};
    AscendingUnique(s, [j, k]);
  }

  lemma PrintTwoMembers(v: Json, w: Json, j: string, k: string, ft: FloatTable)
    requires Before(j, k)
    ensures Print(Obj(map[k := w, j := v]), ft) ==
              "{" + (Quote(j) + ":" + Print(v, ft) + "," + (Quote(k) + ":" + Print(w, ft))) + "}"
  {
    SortedPair(j, k);
    BeforeTotal(j, k);
    var o := Obj(map[k := w, j := v]);
    assert o.fields.Keys == {j, k} && o.fields[j] == v && o.fields[k] == w;
    assert [j, k][1..] == [k];
    assert PrintMembers(o, [k], ft) == Quote(k) + ":" + Print(w, ft);
    assert PrintMembers(o, [j, k], ft) == Quote(j) + ":" + Print(v, ft) + "," + PrintMembers(o, [k], ft);
    hide Quote;
  }

  /** Two printable values have the same text exactly when they are equal. */
  lemma PrintInjective(v: Json, w: Json, ft: FloatTable)
    requires FaithfulFloats(ft) && Printable(v, ft) && Printable(w, ft)
    ensures Print(v, ft) == Print(w, ft) <==> v == w
  {
    hide Parse;
    hide Print;
    ParsePrint(v, "", ft);
    ParsePrint(w, "", ft);
    assert Print(v, ft) + "" == Print(v, ft) && Print(w, ft) + "" == Print(w, ft);
  }
}

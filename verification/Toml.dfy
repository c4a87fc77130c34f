/** Basic strings of TOML 1.0.0, and which JSON string texts they read. */
module Toml {
  import opened Wrappers
  import opened Json

  const DELETE: char := 0x7F as char

  /** Of the control characters only the tab may stand unescaped. */
  predicate Unescaped(c: char)
  {
    c == '\t' || (c >= ' ' && c != '"' && c != '\\' && c != DELETE)
  }

  function ScalarOf(n: nat): Option<char>
  {
    if n < 0xD800 || 0xE000 <= n < 0x11_0000 then Some(n as char) else None
  }

  function ShortBasic(c: char): Option<char>
  {
    if c == '"' || c == '\\' then Some(c)
    else if c == 'n' then Some('\n')
    else if c == 'r' then Some('\r')
    else if c == 't' then Some('\t')
    else if c == 'b' then Some(8 as char)
    else if c == 'f' then Some(12 as char)
    else None
  }

  /** One possibly escaped character of a basic string, and what follows it. */
  function ReadBasicChar(t: string): (r: Option<(char, string)>)
    ensures r.Some? ==> |r.value.1| < |t|
  {
    if t == [] then None
    else if t[0] != '\\' then (if Unescaped(t[0]) then Some((t[0], t[1..])) else None)
    else if |t| >= 6 && t[1] == 'u' then
      var n := FourHex(t[2], t[3], t[4], t[5]);
      if n.None? || ScalarOf(n.value).None? then None else Some((ScalarOf(n.value).value, t[6..]))
    else if |t| >= 10 && t[1] == 'U' then
      var hi, lo := FourHex(t[2], t[3], t[4], t[5]), FourHex(t[6], t[7], t[8], t[9]);
      if hi.None? || lo.None? || ScalarOf(0x1_0000 * hi.value + lo.value).None? then None
      else Some((ScalarOf(0x1_0000 * hi.value + lo.value).value, t[10..]))
    else if |t| >= 2 && ShortBasic(t[1]).Some? then Some((ShortBasic(t[1]).value, t[2..]))
    else None
  }

  /** The characters up to the closing quotation mark. */
  function ReadBasic(t: string): (r: Option<(string, string)>)
    ensures r.Some? ==> |r.value.1| < |t|
    decreases |t|
  {
    if t != [] && t[0] == '"' then Some(([], t[1..]))
    else
      var c := ReadBasicChar(t);
      if c.None? then None
      else
        var more := ReadBasic(c.value.1);
        if more.None? then None else Some(([c.value.0] + more.value.0, more.value.1))
  }

  lemma BasicOfEscaped(c: char, rest: string)
    ensures ReadBasicChar(Escape(c) + rest) == if c == DELETE then None else Some((c, rest))
  {
    var t := Escape(c) + rest;
    if Escape(c) == [c] {
      assert t[1..] == rest;
    } else if |Escape(c)| == 2 {
      assert t[2..] == rest;
    } else {
      assert t[6..] == rest;
      assert t[2] == '0' && t[3] == '0';
      assert t[4] == HexDigit(c as nat / 16) && t[5] == HexDigit(c as nat % 16);
    }
  }

  /** The JSON text of a string is read back by TOML if and only if the string does not contain U+007F. */
  lemma {:induction false} BasicOfJson(s: string, rest: string)
    ensures ReadBasic(EscapeAll(s) + "\"" + rest) == if DELETE in s then None else Some((s, rest))
    decreases |s|
  {
    var t := EscapeAll(s) + "\"" + rest;
    if s == [] {
      assert t[1..] == rest;
    } else {
      var tail := EscapeAll(s[1..]) + "\"" + rest;
      assert t == Escape(s[0]) + tail;
      EscapeShape(s[0]);
      BasicOfEscaped(s[0], tail);
      BasicOfJson(s[1..], rest);
      assert s == [s[0]] + s[1..];
    }
  }
}

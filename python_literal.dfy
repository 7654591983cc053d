/**
 * How Python reads the body of a non-raw triple-quoted string literal
 * `"""..."""`, as far as the uploader script needs it, and an escaping
 * function whose output that reading turns back into the original text.
 */
module PythonLiteral {
  import opened Options

  const TripleQuote: string := "\"\"\""

  predicate StartsTripleQuote(s: string)
  {
    |s| >= 3 && s[0] == '"' && s[1] == '"' && s[2] == '"'
  }

  predicate IsOctal(c: char)
  {
    '0' <= c <= '7'
  }

  /** How many octal digits an octal escape takes: as many as follow, at most three. */
  function OctalRun(t: string): (n: nat)
    ensures n <= 3 && n <= |t|
    ensures forall k | 0 <= k < n :: IsOctal(t[k])
    ensures n < 3 && n < |t| ==> !IsOctal(t[n])
  {
    if |t| >= 1 && IsOctal(t[0]) then
      if |t| >= 2 && IsOctal(t[1]) then
        if |t| >= 3 && IsOctal(t[2]) then 3 else 2
      else 1
    else 0
  }

  /** The number written by a run of octal digits. */
  function OctalValue(t: string): (v: nat)
    requires forall k | 0 <= k < |t| :: IsOctal(t[k])
    ensures v < Pow8(|t|)
  {
    if t == [] then 0
    else
      assert IsOctal(t[|t| - 1]);
      OctalValue(t[..|t| - 1]) * 8 + (t[|t| - 1] as int - '0' as int)
  }

  function Pow8(n: nat): (p: nat)
    ensures p >= 1
  {
    if n == 0 then 1 else 8 * Pow8(n - 1)
  }

  /**
   * The escape that follows a backslash at the start of `t`: the text it
   * stands for and how many characters of `t` it takes. A backslash before a
   * newline joins lines; the simple escapes and octal escapes are decoded; an
   * unrecognised escape keeps its backslash. `None` stands for what this
   * reader does not model (`\x`, `\N`, `\u`, `\U`) and for a raw carriage
   * return or NUL.
   */
  function Unescape(t: string): (r: Option<(string, nat)>)
    requires |t| >= 1
    ensures r.Some? ==> 1 <= r.value.1 <= |t|
  {
    var c := t[0];
    if c == '\n' then Some(("", 1))
    else if c == '\\' || c == '\'' || c == '"' then Some(([c], 1))
    else if c == 'a' then Some(("\U{7}", 1))
    else if c == 'b' then Some(("\U{8}", 1))
    else if c == 'f' then Some(("\U{c}", 1))
    else if c == 'n' then Some(("\n", 1))
    else if c == 'r' then Some(("\r", 1))
    else if c == 't' then Some(("\t", 1))
    else if c == 'v' then Some(("\U{b}", 1))
    else if IsOctal(c) then
      var n := OctalRun(t);
      var v := OctalValue(t[..n]);
      assert v < 512 by { assert Pow8(n) <= Pow8(3) by { Pow8Grows(n, 3); } }
      Some(([v as char], n))
    else if c == 'x' || c == 'N' || c == 'u' || c == 'U' || c == '\r' || c == '\0' then None
    else Some((['\\', c], 1))
  }

  lemma {:induction false} Pow8Grows(m: nat, n: nat)
    requires m <= n
    ensures Pow8(m) <= Pow8(n)
  {
    if m < n {
      Pow8Grows(m, n - 1);
    }
  }

  function Prepend(piece: string, r: Option<(string, string)>): (joined: Option<(string, string)>)
  {
    match r
    case None => None
    case Some((value, rest)) => Some((piece + value, rest))
  }

  /**
   * Reads a triple-quoted literal whose opening quotes have already been
   * consumed: its value and the text after the closing quotes. `None` when the
   * literal never closes or holds something this reader does not model.
   */
  function ReadTripleQuoted(s: string): (r: Option<(string, string)>)
    decreases |s|
  {
    if s == [] then None
    else if StartsTripleQuote(s) then Some(("", s[3..]))
    else if s[0] == '\r' || s[0] == '\0' then None
    else if s[0] == '\\' then
      if |s| == 1 then None
      else match Unescape(s[1..])
        case None => None
        case Some((piece, used)) => Prepend(piece, ReadTripleQuoted(s[1 + used..]))
    else Prepend([s[0]], ReadTripleQuoted(s[1..]))
  }

  /** The characters that cannot stand for themselves inside the literal. */
  predicate NeedsEscape(c: char)
  {
    c == '\\' || c == '"' || c == '\r' || c == '\0'
  }

  function EscapeChar(c: char): (e: string)
    ensures !NeedsEscape(c) ==> e == [c]
    ensures NeedsEscape(c) ==> |e| >= 2 && e[0] == '\\'
  {
    if c == '\\' then "\\\\"
    else if c == '"' then "\\\""
    else if c == '\r' then "\\r"
    else if c == '\0' then "\\000"
    else [c]
  }

  /** The text to put between `"""` and `"""` so that Python reads back `code`. */
  function Escape(code: string): (escaped: string)
  {
    if code == [] then "" else EscapeChar(code[0]) + Escape(code[1..])
  }

  /** Escaping leaves text without backslashes, quotes, carriage returns and NULs unchanged. */
  lemma {:induction false} EscapePlain(code: string)
    requires forall k | 0 <= k < |code| :: !NeedsEscape(code[k])
    ensures Escape(code) == code
  {
    if code != [] {
      EscapePlain(code[1..]);
    }
  }

  /** One escaped character is read back as itself. */
  lemma ReadEscapedChar(c: char, more: string)
    ensures ReadTripleQuoted(EscapeChar(c) + more) == Prepend([c], ReadTripleQuoted(more))
  {
    var s := EscapeChar(c) + more;
    if c == '\0' {
      ReadEscapedNul(more);
    } else if NeedsEscape(c) {
      assert s[2..] == more;
    } else {
      assert s[1..] == more;
    }
  }

  /** `\000` is read back as a NUL. */
  lemma ReadEscapedNul(more: string)
    ensures ReadTripleQuoted("\\000" + more) == Prepend(['\0'], ReadTripleQuoted(more))
  {
    var s := "\\000" + more;
    assert s[1..] == "000" + more;
    assert OctalRun(s[1..]) == 3;
    assert s[1..][..3] == "000";
    assert OctalValue("000") == 0 by {
      assert "000"[..2] == "00";
      assert "00"[..1] == "0";
      assert "0"[..0] == "";
    }
    assert s[4..] == more;
  }

  /** Python reads an escaped text, followed by closing quotes, back as the text itself. */
  lemma {:induction false} EscapeRoundTrip(code: string, rest: string)
    ensures ReadTripleQuoted(Escape(code) + TripleQuote + rest) == Some((code, rest))
  {
    if code == [] {
      assert Escape(code) + TripleQuote + rest == TripleQuote + rest;
      assert (TripleQuote + rest)[3..] == rest;
    } else {
      var more := Escape(code[1..]) + TripleQuote + rest;
      assert Escape(code) + TripleQuote + rest == EscapeChar(code[0]) + more;
      ReadEscapedChar(code[0], more);
      EscapeRoundTrip(code[1..], rest);
      assert [code[0]] + code[1..] == code;
    }
  }

  /**
   * Reading stops at the first `"""` that no backslash precedes: whatever text
   * such quotes are inside of, the value read is no longer than the text before them.
   */
  lemma {:induction false} ReadStopsAtTripleQuote(s: string, k: nat)
    requires k + 3 <= |s| && StartsTripleQuote(s[k..])
    requires forall j | 0 <= j < k :: s[j] != '\\'
    ensures ReadTripleQuoted(s).Some? ==> |ReadTripleQuoted(s).value.0| <= k
  {
    if k > 0 && !StartsTripleQuote(s) && s[0] != '\r' && s[0] != '\0' {
      assert s[1..][k - 1..] == s[k..];
      ReadStopsAtTripleQuote(s[1..], k - 1);
    }
  }

  /**
   * A literal ends at its first `"""` when no backslash, carriage return or NUL
   * comes before it: its value is the text before the quotes, and reading
   * goes on right after them.
   */
  lemma {:induction false} ReadsToTripleQuote(s: string, k: nat)
    requires k + 3 <= |s| && StartsTripleQuote(s[k..])
    requires forall j | 0 <= j < k ::
      s[j] != '\\' && s[j] != '\r' && s[j] != '\0' && !StartsTripleQuote(s[j..])
    ensures ReadTripleQuoted(s) == Some((s[..k], s[k + 3..]))
  {
    if k == 0 {
      assert s[..0] == [];
      assert s[0..] == s;
    } else {
      assert s[0..] == s;
      var t := s[1..];
      forall j | 0 <= j < k - 1
        ensures t[j] != '\\' && t[j] != '\r' && t[j] != '\0' && !StartsTripleQuote(t[j..])
      {
        assert t[j..] == s[j + 1..];
      }
      assert t[k - 1..] == s[k..];
      ReadsToTripleQuote(t, k - 1);
      assert [s[0]] + t[..k - 1] == s[..k];
      assert t[k - 1 + 3..] == s[k + 3..];
    }
  }
}

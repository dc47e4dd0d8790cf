/**
 * The few JavaScript string operations the session manager and the
 * authorisation rule rely on: `trim`, `startsWith` and the newline
 * replacement `replace(/\n/g, ' ')`. The functions carry only their cheap
 * facts; what they mean is stated by the lemmas after them.
 */
module JsString {

  /**
   * The characters `String.prototype.trim` strips: ECMA-262's WhiteSpace
   * (tab, vertical tab, form feed, the byte-order mark and every
   * space separator of category Zs) and LineTerminator (LF, CR, U+2028,
   * U+2029).
   */
  predicate IsWhitespace(c: char) {
    || c == '\t' || c == '\n' || c == '\U{000B}' || c == '\U{000C}' || c == '\r'
    || c == ' ' || c == '\U{00A0}' || c == '\U{1680}'
    || ('\U{2000}' <= c <= '\U{200A}')
    || c == '\U{2028}' || c == '\U{2029}' || c == '\U{202F}' || c == '\U{205F}'
    || c == '\U{3000}' || c == '\U{FEFF}'
  }

  predicate AllWhitespace(s: string) {
    forall i :: 0 <= i < |s| ==> IsWhitespace(s[i])
  }

  /** Drops leading whitespace. */
  function TrimStart(s: string): (r: string)
    ensures |r| <= |s|
  {
    if s != [] && IsWhitespace(s[0]) then TrimStart(s[1..]) else s
  }

  /** Drops trailing whitespace. */
  function TrimEnd(s: string): (r: string)
    ensures |r| <= |s|
  {
    if s != [] && IsWhitespace(s[|s| - 1]) then TrimEnd(s[..|s| - 1]) else s
  }

  /** `s.trim()`. */
  function Trim(s: string): (r: string)
    ensures |r| <= |s|
  {
    TrimEnd(TrimStart(s))
  }

  /** `s.replace(/\n/g, ' ')`. */
  function ReplaceNewlines(s: string): (r: string)
    ensures |r| == |s|
  {
    seq(|s|, i requires 0 <= i < |s| => if s[i] == '\n' then ' ' else s[i])
  }

  /** `s.startsWith(prefix)`. */
  predicate StartsWith(s: string, prefix: string) {
    |prefix| <= |s| && s[..|prefix|] == prefix
  }

  /** `TrimStart` keeps the suffix after the leading whitespace run, which then starts with non-whitespace. */
  lemma {:induction false} TrimStartSpec(s: string)
    ensures var r := TrimStart(s);
            && r == s[|s| - |r|..]
            && (forall i :: 0 <= i < |s| - |r| ==> IsWhitespace(s[i]))
            && (r == [] || !IsWhitespace(r[0]))
  {
    if s != [] && IsWhitespace(s[0]) {
      TrimStartSpec(s[1..]);
      var r := TrimStart(s);
      forall i | 0 <= i < |s| - |r| ensures IsWhitespace(s[i]) {
        if i > 0 { assert s[i] == s[1..][i - 1]; }
      }
    }
  }

  /** `TrimEnd` keeps the prefix before the trailing whitespace run, which then ends with non-whitespace. */
  lemma {:induction false} TrimEndSpec(s: string)
    ensures var r := TrimEnd(s);
            && r == s[..|r|]
            && (forall i :: |r| <= i < |s| ==> IsWhitespace(s[i]))
            && (r == [] || !IsWhitespace(r[|r| - 1]))
  {
    if s != [] && IsWhitespace(s[|s| - 1]) {
      var t := s[..|s| - 1];
      TrimEndSpec(t);
      var r := TrimEnd(s);
      forall i | |r| <= i < |s| ensures IsWhitespace(s[i]) {
        if i < |s| - 1 { assert s[i] == t[i]; }
      }
    }
  }

  /**
   * `trim()` is empty exactly when the text is all whitespace; otherwise it
   * neither starts nor ends with whitespace; it uses only characters of the text.
   */
  lemma TrimSpec(s: string)
    ensures Trim(s) == [] <==> AllWhitespace(s)
    ensures Trim(s) != [] ==> !IsWhitespace(Trim(s)[0]) && !IsWhitespace(Trim(s)[|Trim(s)| - 1])
    ensures forall c :: c in Trim(s) ==> c in s
  {
    var t := TrimStart(s);
    var r := TrimEnd(t);
    TrimStartSpec(s);
    TrimEndSpec(t);
    assert r == [] ==> t == [];
    if r != [] {
      assert t[0] == s[|s| - |t|];
    }
    forall c | c in r ensures c in s {
      var i :| 0 <= i < |r| && r[i] == c;
      assert t[i] == s[|s| - |t| + i];
    }
  }

  /** Every line feed becomes a space, every other character stays in place. */
  lemma ReplaceNewlinesSpec(s: string)
    ensures '\n' !in ReplaceNewlines(s)
    ensures forall i :: 0 <= i < |s| && s[i] == '\n' ==> ReplaceNewlines(s)[i] == ' '
    ensures forall i :: 0 <= i < |s| && s[i] != '\n' ==> ReplaceNewlines(s)[i] == s[i]
    ensures AllWhitespace(ReplaceNewlines(s)) <==> AllWhitespace(s)
  {
    var r := ReplaceNewlines(s);
    if AllWhitespace(s) {
      forall i | 0 <= i < |r| ensures IsWhitespace(r[i]) {
        if s[i] == '\n' { assert r[i] == ' '; }
      }
    }
    if AllWhitespace(r) {
      forall i | 0 <= i < |s| ensures IsWhitespace(s[i]) {
        assert IsWhitespace(r[i]);
      }
    }
  }

  /** Every extension of `prefix` starts with it. */
  lemma StartsWithExtension(prefix: string, rest: string)
    ensures StartsWith(prefix + rest, prefix)
  {
    assert (prefix + rest)[..|prefix|] == prefix;
  }
}

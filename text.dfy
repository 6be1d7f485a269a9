/** The java.lang.String and java.io.BufferedReader behaviour that the
    repository layer relies on when it reads the external tool's output. */
module Text {
  import opened Results

  // ---------------------------------------------------------------------
  // Lines, as BufferedReader.readLine delivers them
  // ---------------------------------------------------------------------

  /** "\n" and "\r" end a line; "\r\n" counts as one terminator. */
  predicate IsLineBreak(c: char) { c == '\n' || c == '\r' }

  predicate NoLineBreak(s: string) { forall i :: 0 <= i < |s| ==> !IsLineBreak(s[i]) }

  /** Index of the first line terminator in `s`, or `|s|` when there is none. */
  function LineEnd(s: string): (n: nat)
    ensures n <= |s|
    ensures forall i :: 0 <= i < n ==> !IsLineBreak(s[i])
    ensures n < |s| ==> IsLineBreak(s[n])
  {
    if s == [] || IsLineBreak(s[0]) then 0 else 1 + LineEnd(s[1..])
  }

  /** One call of readLine on the unread part `s` of the input (non-empty,
      otherwise readLine answers null): the line without its terminator, and
      what is left unread after the terminator. */
  function ReadLine(s: string): (r: (string, string))
    requires s != []
    ensures NoLineBreak(r.0)
    ensures |r.1| < |s|
    ensures |r.0| <= |s| && r.0 == s[..|r.0|]
  {
    var n := LineEnd(s);
    if n == |s| then (s, [])
    else if s[n] == '\r' && n + 1 < |s| && s[n + 1] == '\n' then (s[..n], s[n + 2..])
    else (s[..n], s[n + 1..])
  }

  /** Every line readLine yields from `s`, in order, before it answers null. */
  function Lines(s: string): (ls: seq<string>)
    ensures forall i :: 0 <= i < |ls| ==> NoLineBreak(ls[i])
    ensures ls == [] <==> s == []
    decreases |s|
  {
    if s == [] then [] else [ReadLine(s).0] + Lines(ReadLine(s).1)
  }

  /** The text of `ls` as the tool prints a list: each line ended by "\n". */
  function Unlines(ls: seq<string>): string
  {
    if ls == [] then [] else ls[0] + "\n" + Unlines(ls[1..])
  }

  lemma {:induction false} LineEndOfLine(l: string, t: string)
    requires NoLineBreak(l)
    requires t != [] && IsLineBreak(t[0])
    ensures LineEnd(l + t) == |l|
  {
    if l != [] {
      assert (l + t)[1..] == l[1..] + t;
      LineEndOfLine(l[1..], t);
    }
  }

  /** A line ended by "\n" is read back exactly, and the reader stops right after it. */
  lemma ReadLineOfTerminated(l: string, rest: string)
    requires NoLineBreak(l)
    ensures ReadLine(l + "\n" + rest) == (l, rest)
  {
    var s := l + "\n" + rest;
    assert s == l + ("\n" + rest);
    LineEndOfLine(l, "\n" + rest);
    assert s[..|l|] == l;
    assert s[|l| + 1..] == rest;
  }

  /** Reading lines undoes printing them: what the tool prints one per line
      is exactly what the layer reads back. */
  lemma {:induction false} LinesUnlines(ls: seq<string>)
    requires forall i :: 0 <= i < |ls| ==> NoLineBreak(ls[i])
    ensures Lines(Unlines(ls)) == ls
  {
    if ls != [] {
      ReadLineOfTerminated(ls[0], Unlines(ls[1..]));
      LinesUnlines(ls[1..]);
    }
  }

  /** Text without a terminator is a single line, also when nothing ends it. */
  lemma LinesOfUnterminated(l: string)
    requires NoLineBreak(l) && l != []
    ensures Lines(l) == [l]
  {
    assert LineEnd(l) == |l|;
  }

  /** The first line of a text is the first thing readLine answers. */
  lemma LinesHead(s: string)
    requires s != []
    ensures Lines(s)[0] == ReadLine(s).0
  {
  }

  // ---------------------------------------------------------------------
  // String.trim()
  // ---------------------------------------------------------------------

  /** String.trim removes every character up to U+0020 from both ends. */
  predicate IsTrimmed(c: char) { c <= ' ' }

  function TrimStart(s: string): (r: string)
    ensures r == [] || !IsTrimmed(r[0])
    ensures |r| <= |s| && r == s[|s| - |r|..]
  {
    if s != [] && IsTrimmed(s[0]) then TrimStart(s[1..]) else s
  }

  function TrimEnd(s: string): (r: string)
    ensures r == [] || !IsTrimmed(r[|r| - 1])
    ensures |r| <= |s| && r == s[..|r|]
  {
    if s != [] && IsTrimmed(s[|s| - 1]) then TrimEnd(s[..|s| - 1]) else s
  }

  function Trim(s: string): (r: string)
    ensures r == [] || (!IsTrimmed(r[0]) && !IsTrimmed(r[|r| - 1]))
    ensures |r| <= |s|
  {
    TrimEnd(TrimStart(s))
  }

  /** Trimming leaves a string alone when neither end can be trimmed. */
  lemma TrimKeeps(s: string)
    requires s == [] || (!IsTrimmed(s[0]) && !IsTrimmed(s[|s| - 1]))
    ensures Trim(s) == s
  {
  }

  /** A trailing line terminator never survives trimming. */
  lemma TrimDropsTerminator(s: string)
    requires s == [] || (!IsTrimmed(s[0]) && !IsTrimmed(s[|s| - 1]))
    ensures Trim(s + "\n") == s
  {
    var t := s + "\n";
    if s == [] {
      assert TrimStart(t) == [];
    } else {
      assert TrimStart(t) == t;
      assert t[..|t| - 1] == s;
      assert TrimEnd(t) == TrimEnd(s);
    }
  }

  // ---------------------------------------------------------------------
  // String.split("\\s+")
  // ---------------------------------------------------------------------

  /** The characters the regular-expression class `\s` matches. */
  predicate IsRegexSpace(c: char)
  {
    c == ' ' || c == '\t' || c == '\n' || c == '\U{000B}' || c == '\U{000C}' || c == '\r'
  }

  predicate NoRegexSpace(s: string) { forall i :: 0 <= i < |s| ==> !IsRegexSpace(s[i]) }

  /** Index of the first `\s` character of `s`, or `|s|`. */
  function WordEnd(s: string): (n: nat)
    ensures n <= |s|
    ensures forall i :: 0 <= i < n ==> !IsRegexSpace(s[i])
    ensures n < |s| ==> IsRegexSpace(s[n])
  {
    if s == [] || IsRegexSpace(s[0]) then 0 else 1 + WordEnd(s[1..])
  }

  /** The maximal runs of non-`\s` characters of `s`, in order. */
  function Tokens(s: string): (ts: seq<string>)
    ensures forall i :: 0 <= i < |ts| ==> ts[i] != [] && NoRegexSpace(ts[i])
    decreases |s|
  {
    if s == [] then []
    else if IsRegexSpace(s[0]) then Tokens(s[1..])
    else [s[..WordEnd(s)]] + Tokens(s[WordEnd(s)..])
  }

  /** `s.split("\\s+")`: the text between runs of `\s`, where a run at the
      start leaves an empty first field, trailing empty fields are dropped,
      and a string with no match at all (only "" here, once runs at the ends
      are accounted for) splits into itself. */
  function SplitOnWhitespace(s: string): (fields: seq<string>)
    ensures s != [] && !IsRegexSpace(s[0]) ==> fields == Tokens(s)
    ensures forall i :: 0 < i < |fields| ==> fields[i] != []
  {
    if s == [] then [""]
    else if IsRegexSpace(s[0]) && Tokens(s) != [] then [""] + Tokens(s)
    else Tokens(s)
  }

  lemma {:induction false} WordEndOfWord(w: string, t: string)
    requires NoRegexSpace(w)
    requires t != [] && IsRegexSpace(t[0])
    ensures WordEnd(w + t) == |w|
  {
    if w != [] {
      assert (w + t)[1..] == w[1..] + t;
      WordEndOfWord(w[1..], t);
    }
  }

  /** A word followed by a separator is the first token. */
  lemma TokensOfWord(w: string, sep: char, rest: string)
    requires w != [] && NoRegexSpace(w) && IsRegexSpace(sep)
    ensures Tokens(w + [sep] + rest) == [w] + Tokens(rest)
  {
    var s := w + [sep] + rest;
    assert s == w + ([sep] + rest);
    WordEndOfWord(w, [sep] + rest);
    assert s[..|w|] == w;
    assert s[|w|..] == [sep] + rest;
    assert ([sep] + rest)[1..] == rest;
  }

  lemma {:induction false} TokensOfLastWord(w: string)
    requires w != [] && NoRegexSpace(w)
    ensures Tokens(w) == [w]
  {
    assert WordEnd(w) == |w|;
    assert w[..|w|] == w;
    assert w[|w|..] == [];
    assert Tokens([]) == [];
  }

  // ---------------------------------------------------------------------
  // Other java.lang.String operations
  // ---------------------------------------------------------------------

  predicate StartsWith(s: string, prefix: string)
  {
    |prefix| <= |s| && s[..|prefix|] == prefix
  }

  predicate EndsWith(s: string, suffix: string)
  {
    |suffix| <= |s| && s[|s| - |suffix|..] == suffix
  }

  /** `s.indexOf(sub) != -1`. */
  predicate Contains(s: string, sub: string)
    decreases |s|
  {
    StartsWith(s, sub) || (s != [] && Contains(s[1..], sub))
  }

  /** `s.indexOf(c)`: the first index of `c`, or -1. */
  function IndexOf(s: string, c: char): (i: int)
    ensures -1 <= i < |s|
    ensures i == -1 <==> c !in s
    ensures 0 <= i ==> s[i] == c && c !in s[..i]
  {
    if s == [] then -1
    else if s[0] == c then 0
    else
      var j := IndexOf(s[1..], c);
      assert s[1..][..if j < 0 then 0 else j] == s[1..1 + if j < 0 then 0 else j];
      if j == -1 then -1 else j + 1
  }

  /** `s.replace(from, to)`: every `from` becomes `to`, every other character stays. */
  function ReplaceChar(s: string, from: char, to: char): (r: string)
    ensures |r| == |s|
    ensures forall i :: 0 <= i < |s| ==> r[i] == if s[i] == from then to else s[i]
  {
    if s == [] then [] else [if s[0] == from then to else s[0]] + ReplaceChar(s[1..], from, to)
  }

  /** The text Java produces when a possibly-null string is concatenated. */
  function JavaString(s: Option<string>): string
  {
    match s
    case None => "null"
    case Some(v) => v
  }

  /** StringUtils.join(parts, sep). */
  function Join(parts: seq<string>, sep: string): string
  {
    if parts == [] then []
    else if |parts| == 1 then parts[0]
    else parts[0] + sep + Join(parts[1..], sep)
  }

  function DigitsOf(n: nat): string
  {
    if n < 10 then [(48 + n) as char] else DigitsOf(n / 10) + [(48 + n % 10) as char]
  }

  /** Integer.toString in base ten. */
  function IntToString(i: int): string
  {
    if i < 0 then "-" + DigitsOf(-i) else DigitsOf(i)
  }

  function ToLowerAscii(c: char): char
  {
    if 'A' <= c <= 'Z' then (c as int + 32) as char else c
  }

  /** String.equalsIgnoreCase for text in the ASCII range. */
  predicate EqualsIgnoreCase(a: string, b: string)
  {
    |a| == |b| && forall i :: 0 <= i < |a| ==> ToLowerAscii(a[i]) == ToLowerAscii(b[i])
  }

  /** Character.isWhitespace: the Unicode space, line and paragraph separators
      other than the non-breaking ones, and the ASCII controls U+0009 to
      U+000D and U+001C to U+001F. */
  predicate IsJavaWhitespace(c: char)
  {
    c == ' ' || ('\U{0009}' <= c <= '\U{000D}') || ('\U{001C}' <= c <= '\U{001F}')
    || c == '\U{1680}' || ('\U{2000}' <= c <= '\U{2006}') || ('\U{2008}' <= c <= '\U{200A}')
    || c == '\U{2028}' || c == '\U{2029}' || c == '\U{205F}' || c == '\U{3000}'
  }

  /** StringUtils.isBlank: null, empty, or whitespace only. */
  predicate IsBlank(s: Option<string>)
  {
    s.None? || forall i :: 0 <= i < |s.value| ==> IsJavaWhitespace(s.value[i])
  }
}

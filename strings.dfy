/** The JavaScript string operations the chat hooks build prompts and display text with,
    over Dafny strings. A JavaScript string is a sequence of UTF-16 code units; here a string
    is a sequence of chars. */
module Strings {

  datatype Option<T> = None | Some(value: T)

  /** White space and line terminators, the characters String.prototype.trim removes. */
  predicate IsJsSpace(c: char) {
    c == '\t' || c == '\n' || c == '\r' || c == ' ' || c == '\U{000B}' || c == '\U{000C}' ||
    c == '\U{00A0}' || c == '\U{1680}' || ('\U{2000}' <= c <= '\U{200A}') ||
    c == '\U{2028}' || c == '\U{2029}' || c == '\U{202F}' || c == '\U{205F}' ||
    c == '\U{3000}' || c == '\U{FEFF}'
  }

  predicate IsBlank(s: string) {
    forall i :: 0 <= i < |s| ==> IsJsSpace(s[i])
  }

  /** `s.trimStart()` */
  function TrimStart(s: string): (r: string)
    ensures |r| <= |s|
  {
    if |s| > 0 && IsJsSpace(s[0]) then TrimStart(s[1..]) else s
  }

  /** TrimStart removes a prefix of white space and stops at the first other character. */
  lemma {:induction false} TrimStartDropsSpaces(s: string)
    ensures var r := TrimStart(s);
            && r == s[|s| - |r|..]
            && (r == [] || !IsJsSpace(r[0]))
            && forall i :: 0 <= i < |s| - |r| ==> IsJsSpace(s[i])
  {
    if |s| > 0 && IsJsSpace(s[0]) {
      TrimStartDropsSpaces(s[1..]);
    }
  }

  /** `s.trimEnd()` */
  function TrimEnd(s: string): (r: string)
    ensures |r| <= |s|
  {
    if |s| > 0 && IsJsSpace(s[|s| - 1]) then TrimEnd(s[..|s| - 1]) else s
  }

  /** TrimEnd removes a suffix of white space and stops at the last other character. */
  lemma {:induction false} TrimEndDropsSpaces(s: string)
    ensures var r := TrimEnd(s);
            && r == s[..|r|]
            && (r == [] || !IsJsSpace(r[|r| - 1]))
            && forall i :: |r| <= i < |s| ==> IsJsSpace(s[i])
  {
    if |s| > 0 && IsJsSpace(s[|s| - 1]) {
      TrimEndDropsSpaces(s[..|s| - 1]);
    }
  }

  /** `s.trim()` */
  function Trim(s: string): (r: string)
    ensures |r| <= |s|
  {
    TrimEnd(TrimStart(s))
  }

  /** The trimmed string is empty exactly for blank strings; otherwise it neither starts nor
      ends with white space. */
  lemma TrimBlank(s: string)
    ensures Trim(s) == [] <==> IsBlank(s)
    ensures Trim(s) != [] ==> !IsJsSpace(Trim(s)[0]) && !IsJsSpace(Trim(s)[|Trim(s)| - 1])
  {
    var t := TrimStart(s);
    TrimStartDropsSpaces(s);
    TrimEndDropsSpaces(t);
    var r := TrimEnd(t);
    if r == [] {
      assert t == [];
    } else {
      assert r[0] == t[0];
      assert !IsJsSpace(s[|s| - |t|]);
    }
  }

  /** `s.slice(0, -1)`: the string without its last character (empty stays empty). */
  function DropLast(s: string): (r: string)
    ensures |s| > 0 ==> r + [s[|s| - 1]] == s
    ensures |s| == 0 ==> r == []
  {
    if |s| == 0 then [] else s[..|s| - 1]
  }

  predicate MatchAt(s: string, p: string, i: int) {
    0 <= i && i + |p| <= |s| && s[i..i + |p|] == p
  }

  predicate Occurs(s: string, p: string) {
    exists i :: 0 <= i <= |s| && MatchAt(s, p, i)
  }

  /** `s.indexOf(p, from)`: the first position at or after `from` where p occurs. */
  function IndexOf(s: string, p: string, from: nat): (r: Option<nat>)
    requires from <= |s|
    ensures r.Some? ==> from <= r.value && r.value + |p| <= |s|
    decreases |s| - from
  {
    if from + |p| > |s| then None
    else if MatchAt(s, p, from) then Some(from)
    else
      assert |p| > 0;
      IndexOf(s, p, from + 1)
  }

  /** IndexOf finds the first match at or after `from`, and None means there is none. */
  lemma {:induction false} IndexOfFirst(s: string, p: string, from: nat)
    requires from <= |s|
    ensures IndexOf(s, p, from).Some? ==> MatchAt(s, p, IndexOf(s, p, from).value)
    ensures IndexOf(s, p, from).Some? ==> forall j :: from <= j < IndexOf(s, p, from).value ==> !MatchAt(s, p, j)
    ensures IndexOf(s, p, from).None? ==> forall j :: from <= j ==> !MatchAt(s, p, j)
    decreases |s| - from
  {
    if from + |p| <= |s| && !MatchAt(s, p, from) {
      assert |p| > 0;
      IndexOfFirst(s, p, from + 1);
    }
  }

  lemma MatchOneChar(s: string, c: char, j: int)
    ensures MatchAt(s, [c], j) <==> 0 <= j < |s| && s[j] == c
  {
    if 0 <= j < |s| {
      assert s[j..j + 1] == [s[j]];
    }
  }

  /** IndexOf for a one-character pattern finds the first occurrence of that character. */
  lemma IndexOfChar(s: string, c: char, from: nat)
    requires from <= |s|
    ensures IndexOf(s, [c], from).None? <==> forall j :: from <= j < |s| ==> s[j] != c
    ensures IndexOf(s, [c], from).Some? ==>
      var i := IndexOf(s, [c], from).value;
      i < |s| && s[i] == c && forall j :: from <= j < i ==> s[j] != c
  {
    IndexOfFirst(s, [c], from);
    forall j ensures MatchAt(s, [c], j) <==> 0 <= j < |s| && s[j] == c {
      MatchOneChar(s, c, j);
    }
  }

  /** GetSubstitution for a string pattern, which has no capture groups: the replacement
      template `rep` for the match of length n at position pos of s. `$$`, `$&`, `$`` and `$'`
      are expanded; every other character, a lone `$` included, stands for itself. */
  function Expand(rep: string, s: string, pos: nat, n: nat): string
    requires pos + n <= |s|
    decreases |rep|
  {
    if |rep| == 0 then ""
    else if |rep| >= 2 && rep[0] == '$' && rep[1] == '$' then "$" + Expand(rep[2..], s, pos, n)
    else if |rep| >= 2 && rep[0] == '$' && rep[1] == '&' then s[pos..pos + n] + Expand(rep[2..], s, pos, n)
    else if |rep| >= 2 && rep[0] == '$' && rep[1] == '`' then s[..pos] + Expand(rep[2..], s, pos, n)
    else if |rep| >= 2 && rep[0] == '$' && rep[1] == '\'' then s[pos + n..] + Expand(rep[2..], s, pos, n)
    else [rep[0]] + Expand(rep[1..], s, pos, n)
  }

  /** A replacement text without `$` is inserted literally. */
  lemma {:induction false} ExpandLiteral(rep: string, s: string, pos: nat, n: nat)
    requires pos + n <= |s|
    requires '$' !in rep
    ensures Expand(rep, s, pos, n) == rep
    decreases |rep|
  {
    if |rep| > 0 {
      assert rep == [rep[0]] + rep[1..];
      ExpandLiteral(rep[1..], s, pos, n);
    }
  }

  /** `s.replace(p, rep)` with a string pattern: only the first occurrence of p is replaced. */
  function ReplaceFirst(s: string, p: string, rep: string): (r: string)
    ensures !Occurs(s, p) ==> r == s
  {
    IndexOfFirst(s, p, 0);
    match IndexOf(s, p, 0)
    case None => s
    case Some(i) => s[..i] + Expand(rep, s, i, |p|) + s[i + |p|..]
  }

  /** With a `$`-free replacement, replace cuts p out at its first occurrence and puts rep there. */
  lemma ReplaceFirstLiteral(s: string, p: string, rep: string, i: nat)
    requires '$' !in rep
    requires MatchAt(s, p, i)
    requires forall j :: 0 <= j < i ==> !MatchAt(s, p, j)
    ensures ReplaceFirst(s, p, rep) == s[..i] + rep + s[i + |p|..]
  {
    var k := IndexOf(s, p, 0);
    IndexOfFirst(s, p, 0);
    assert k.Some? && k.value == i;
    ExpandLiteral(rep, s, i, |p|);
  }

  /** replaceAll from position `from` on: a match there is replaced and the scan resumes
      after it; otherwise the character is kept and the scan moves one position on. */
  function ReplaceAllFrom(s: string, p: string, rep: string, from: nat): string
    requires |p| > 0 && from <= |s|
    decreases |s| - from
  {
    if from + |p| > |s| then s[from..]
    else if MatchAt(s, p, from) then Expand(rep, s, from, |p|) + ReplaceAllFrom(s, p, rep, from + |p|)
    else [s[from]] + ReplaceAllFrom(s, p, rep, from + 1)
  }

  /** Where p does not occur from `from` on, replaceAll leaves the rest as it is. */
  lemma {:induction false} ReplaceAllFromNoMatch(s: string, p: string, rep: string, from: nat)
    requires |p| > 0 && from <= |s| && forall j :: from <= j ==> !MatchAt(s, p, j)
    ensures ReplaceAllFrom(s, p, rep, from) == s[from..]
    decreases |s| - from
  {
    if from + |p| <= |s| {
      ReplaceAllFromNoMatch(s, p, rep, from + 1);
      assert s[from..] == [s[from]] + s[from + 1..];
    }
  }

  /** Text in which p does not start is copied as it is until the scan reaches position k. */
  lemma {:induction false} ReplaceAllFromSkip(s: string, p: string, rep: string, from: nat, k: nat)
    requires |p| > 0 && from <= k <= |s|
    requires forall j :: from <= j < k ==> !MatchAt(s, p, j)
    ensures ReplaceAllFrom(s, p, rep, from) == s[from..k] + ReplaceAllFrom(s, p, rep, k)
    decreases k - from
  {
    if from < k {
      if from + |p| > |s| {
        assert s[from..] == s[from..k] + s[k..];
      } else {
        ReplaceAllFromSkip(s, p, rep, from + 1, k);
        assert s[from..k] == [s[from]] + s[from + 1..k];
      }
    }
  }

  /** A match is replaced by a `$`-free replacement and the scan resumes after it. */
  lemma ReplaceAllFromMatch(s: string, p: string, rep: string, k: nat)
    requires |p| > 0 && '$' !in rep && MatchAt(s, p, k)
    ensures ReplaceAllFrom(s, p, rep, k) == rep + ReplaceAllFrom(s, p, rep, k + |p|)
  {
    ExpandLiteral(rep, s, k, |p|);
  }

  /** p does not occur where its first character does not. */
  lemma AbsentFirstChar(s: string, p: string)
    requires |p| > 0 && p[0] !in s
    ensures !Occurs(s, p)
  {
    forall j | 0 <= j <= |s| ensures !MatchAt(s, p, j) {
      if j + |p| <= |s| {
        assert s[j..j + |p|][0] == s[j];
      }
    }
  }

  /** `s.replaceAll(p, rep)` with a non-empty string pattern: occurrences are found left to
      right, each search resuming after the previous match. */
  function ReplaceAll(s: string, p: string, rep: string): (r: string)
    requires |p| > 0
    ensures !Occurs(s, p) ==> r == s
  {
    if !Occurs(s, p) then
      assert forall j :: 0 <= j ==> !MatchAt(s, p, j);
      ReplaceAllFromNoMatch(s, p, rep, 0);
      ReplaceAllFrom(s, p, rep, 0)
    else ReplaceAllFrom(s, p, rep, 0)
  }

  /** replaceAll is the scan from the start. */
  lemma ReplaceAllScan(s: string, p: string, rep: string)
    requires |p| > 0
    ensures ReplaceAll(s, p, rep) == ReplaceAllFrom(s, p, rep, 0)
  {
  }

  /** p does not start inside a prefix that lacks its first character. */
  lemma NoMatchInPrefix(pre: string, p: string, post: string)
    requires |p| > 0 && p[0] !in pre
    ensures forall j :: 0 <= j < |pre| ==> !MatchAt(pre + p + post, p, j)
  {
    var s := pre + p + post;
    forall j | 0 <= j < |pre| ensures !MatchAt(s, p, j) {
      if j + |p| <= |s| {
        assert s[j..j + |p|][0] == s[j] == pre[j];
      }
    }
  }

  /** p does not start after the slot when it does not occur in the text after it. */
  lemma NoMatchInSuffix(pre: string, p: string, post: string)
    requires |p| > 0 && !Occurs(post, p)
    ensures forall j :: |pre| + |p| <= j ==> !MatchAt(pre + p + post, p, j)
  {
    var s, d := pre + p + post, |pre| + |p|;
    forall j | d <= j ensures !MatchAt(s, p, j) {
      if j + |p| <= |s| {
        assert s[j..j + |p|] == post[j - d..j - d + |p|];
        assert !MatchAt(post, p, j - d);
      }
    }
  }

  /** The scan from a match after which p does not occur again. */
  lemma ScanLastMatch(s: string, p: string, rep: string, i: nat)
    requires |p| > 0 && '$' !in rep && MatchAt(s, p, i)
    requires forall j :: i + |p| <= j ==> !MatchAt(s, p, j)
    ensures ReplaceAllFrom(s, p, rep, i) == rep + s[i + |p|..]
  {
    ReplaceAllFromNoMatch(s, p, rep, i + |p|);
    ReplaceAllFromMatch(s, p, rep, i);
  }

  /** The scan over a text in which p occurs only at i, and not again after that match. */
  lemma ScanOnce(s: string, p: string, rep: string, i: nat)
    requires |p| > 0 && '$' !in rep && MatchAt(s, p, i)
    requires forall j :: 0 <= j < i ==> !MatchAt(s, p, j)
    requires forall j :: i + |p| <= j ==> !MatchAt(s, p, j)
    ensures ReplaceAllFrom(s, p, rep, 0) == s[..i] + rep + s[i + |p|..]
  {
    var head, tail := s[..i], s[i + |p|..];
    ScanLastMatch(s, p, rep, i);
    ReplaceAllFromSkip(s, p, rep, 0, i);
    assert s[0..i] == head;
    assert head + (rep + tail) == head + rep + tail;
  }

  /** replaceAll of a pattern that the scan meets once, at i, with a `$`-free replacement:
      the text before and after the match is kept. */
  lemma ReplaceAllOnce(s: string, p: string, rep: string, i: nat)
    requires |p| > 0 && '$' !in rep && MatchAt(s, p, i)
    requires forall j :: 0 <= j < i ==> !MatchAt(s, p, j)
    requires forall j :: i + |p| <= j ==> !MatchAt(s, p, j)
    ensures ReplaceAll(s, p, rep) == s[..i] + rep + s[i + |p|..]
  {
    ScanOnce(s, p, rep, i);
    ReplaceAllScan(s, p, rep);
  }

  /** A multi-character slot is filled: when the first character of p does not occur before
      it and p does not occur after it, replaceAll puts a `$`-free replacement in its place
      and keeps the text around it. */
  lemma ReplaceAllSplice(pre: string, p: string, post: string, rep: string)
    requires |p| > 0 && p[0] !in pre && !Occurs(post, p) && '$' !in rep
    ensures ReplaceAll(pre + p + post, p, rep) == pre + rep + post
  {
    var s := pre + p + post;
    NoMatchInPrefix(pre, p, post);
    NoMatchInSuffix(pre, p, post);
    assert s[|pre|..|pre| + |p|] == p;
    ReplaceAllOnce(s, p, rep, |pre|);
    assert s[..|pre|] == pre && s[|pre| + |p|..] == post;
  }

  /** Every c of s turned into d. */
  function ReplaceChar(s: string, c: char, d: char): string {
    seq(|s|, i requires 0 <= i < |s| => if s[i] == c then d else s[i])
  }

  /** ReplaceChar maps the first character and then the rest. */
  lemma ReplaceCharCons(t: string, c: char, d: char)
    requires t != []
    ensures ReplaceChar(t, c, d) == [if t[0] == c then d else t[0]] + ReplaceChar(t[1..], c, d)
  {
    var l, r := ReplaceChar(t, c, d), [if t[0] == c then d else t[0]] + ReplaceChar(t[1..], c, d);
    forall k | 0 < k < |l| ensures l[k] == r[k] {
      assert r[k] == ReplaceChar(t[1..], c, d)[k - 1];
    }
  }

  lemma {:induction false} ReplaceAllFromOneChar(s: string, c: char, d: char, from: nat)
    requires d != '$' && from <= |s|
    ensures ReplaceAllFrom(s, [c], [d], from) == ReplaceChar(s[from..], c, d)
    decreases |s| - from
  {
    if from < |s| {
      MatchOneChar(s, c, from);
      ExpandLiteral([d], s, from, 1);
      ReplaceAllFromOneChar(s, c, d, from + 1);
      ReplaceCharCons(s[from..], c, d);
      assert s[from..][1..] == s[from + 1..];
    }
  }

  /** Replacing every occurrence of a one-character pattern by a character other than `$`
      maps the string character by character. */
  lemma ReplaceAllOneChar(s: string, c: char, d: char)
    requires d != '$'
    ensures ReplaceAll(s, [c], [d]) == ReplaceChar(s, c, d)
  {
    ReplaceAllFromOneChar(s, c, d, 0);
    assert s[0..] == s;
  }

  /** `parts.join(sep)` */
  function Join(parts: seq<string>, sep: string): string {
    if |parts| == 0 then ""
    else if |parts| == 1 then parts[0]
    else parts[0] + sep + Join(parts[1..], sep)
  }

  /** `s.split(",")[1]`: the text between the first comma and the next one (or the end);
      None, JavaScript's undefined, when s holds no comma. */
  function SecondCommaField(s: string): (r: Option<string>)
    ensures r.None? <==> ',' !in s
    ensures r.Some? ==> ',' !in r.value
  {
    IndexOfChar(s, ',', 0);
    match IndexOf(s, ",", 0)
    case None => None
    case Some(i) =>
      var rest := s[i + 1..];
      IndexOfChar(rest, ',', 0);
      match IndexOf(rest, ",", 0)
      case None => Some(rest)
      case Some(j) => Some(rest[..j])
  }

  /** The template literal `data:${mime};base64,${image.split(",")[1]}`, in which an undefined
      field is printed as "undefined". */
  function DataUri(mime: string, image: string): string {
    "data:" + mime + ";base64," + match SecondCommaField(image) case Some(f) => f case None => "undefined"
  }

  /** Re-encoding a data URI keeps its base64 payload and replaces its media type. */
  lemma ReencodeKeepsPayload(header: string, payload: string, mime: string)
    requires ',' !in header && ',' !in payload
    ensures DataUri(mime, header + "," + payload) == "data:" + mime + ";base64," + payload
  {
    var s := header + "," + payload;
    IndexOfChar(s, ',', 0);
    assert s[|header|] == ',';
    assert IndexOf(s, ",", 0) == Some(|header|);
    assert s[|header| + 1..] == payload;
    IndexOfChar(payload, ',', 0);
  }
}

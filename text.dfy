/** The two ways the source splits text: `str.split()` (all
    whitespace-separated words) and `line.split(maxsplit=1)` unpacked into
    two names, plus `sep.join(parts)`. Whitespace is Python's `str.isspace`. */
module Text {
  import opened Wrappers

  /** Python's `str.isspace()` for one character. */
  predicate IsSpace(c: char)
  {
    || '\t' <= c <= '\r'
    || '\U{1C}' <= c <= ' '
    || c == '\U{85}' || c == '\U{A0}' || c == '\U{1680}'
    || '\U{2000}' <= c <= '\U{200A}'
    || c == '\U{2028}' || c == '\U{2029}' || c == '\U{202F}' || c == '\U{205F}'
    || c == '\U{3000}'
  }

  /** A word as `split` produces it: non-empty, without whitespace. */
  predicate IsWord(w: string)
  {
    w != [] && forall i :: 0 <= i < |w| ==> !IsSpace(w[i])
  }

  /** `s` with its leading whitespace removed. */
  function DropSpace(s: string): (r: string)
    ensures r == [] || !IsSpace(r[0])
    ensures |r| <= |s|
  {
    if s != [] && IsSpace(s[0]) then DropSpace(s[1..]) else s
  }

  /** The longest prefix of `s` that holds no whitespace. */
  function TakeWord(s: string): (w: string)
    ensures |w| <= |s| && w == s[..|w|]
    ensures forall i :: 0 <= i < |w| ==> !IsSpace(w[i])
    ensures |w| == |s| || IsSpace(s[|w|])
  {
    if s != [] && !IsSpace(s[0]) then [s[0]] + TakeWord(s[1..]) else []
  }

  /** `s.split()`: the whitespace-separated words of `s`, in order. */
  function Words(s: string): (ws: seq<string>)
    ensures forall i :: 0 <= i < |ws| ==> IsWord(ws[i])
    decreases |s|
  {
    var t := DropSpace(s);
    if t == [] then []
    else
      var w := TakeWord(t);
      assert !IsSpace(t[0]);
      assert w != [];
      var ws := [w] + Words(t[|w|..]);
      assert ws[0] == w && ws[1..] == Words(t[|w|..]);
      ws
  }

  /** `key, value = line.split(maxsplit=1)`: `None` stands for the
      `ValueError` raised when the line holds fewer than two words. The
      value keeps everything after the whitespace that follows the key,
      trailing whitespace included. */
  function SplitFirst(line: string): (r: Option<(string, string)>)
    ensures r.Some? ==> IsWord(r.value.0) && r.value.1 != [] && !IsSpace(r.value.1[0])
  {
    var t := DropSpace(line);
    var key := TakeWord(t);
    var rest := DropSpace(t[|key|..]);
    if key == [] || rest == [] then None else Some((key, rest))
  }

  /** `sep.join(parts)`. */
  function Join(parts: seq<string>, sep: string): string
  {
    if |parts| == 0 then ""
    else if |parts| == 1 then parts[0]
    else parts[0] + sep + Join(parts[1..], sep)
  }

  lemma DropSpaceNoop(s: string)
    requires s == [] || !IsSpace(s[0])
    ensures DropSpace(s) == s
  {
  }

  lemma {:induction false} DropSpaceAppend(sp: string, s: string)
    requires forall i :: 0 <= i < |sp| ==> IsSpace(sp[i])
    ensures DropSpace(sp + s) == DropSpace(s)
    decreases |sp|
  {
    if sp != [] {
      assert (sp + s)[0] == sp[0];
      assert (sp + s)[1..] == sp[1..] + s;
      DropSpaceAppend(sp[1..], s);
    } else {
      assert sp + s == s;
    }
  }

  lemma {:induction false} TakeWordAppend(w: string, s: string)
    requires forall i :: 0 <= i < |w| ==> !IsSpace(w[i])
    requires s == [] || IsSpace(s[0])
    ensures TakeWord(w + s) == w
    decreases |w|
  {
    if w != [] {
      assert (w + s)[1..] == w[1..] + s;
      TakeWordAppend(w[1..], s);
      assert w == [w[0]] + w[1..];
    }
  }

  lemma WordsAfterSpace(sp: string, s: string)
    requires forall i :: 0 <= i < |sp| ==> IsSpace(sp[i])
    ensures Words(sp + s) == Words(s)
  {
    DropSpaceAppend(sp, s);
  }

  lemma WordsOfWordThen(w: string, s: string)
    requires IsWord(w)
    requires s == [] || IsSpace(s[0])
    ensures Words(w + s) == [w] + Words(s)
  {
    var line := w + s;
    assert line[0] == w[0];
    DropSpaceNoop(line);
    TakeWordAppend(w, s);
    assert line[|w|..] == s;
  }

  /** Splitting on whitespace undoes joining words with a single space. */
  lemma {:induction false} WordsOfJoin(ws: seq<string>)
    requires forall i :: 0 <= i < |ws| ==> IsWord(ws[i])
    ensures Words(Join(ws, " ")) == ws
  {
    if |ws| == 1 {
      WordsOfWordThen(ws[0], "");
      assert ws[0] + "" == ws[0];
    } else if |ws| > 1 {
      var w, rest := ws[0], ws[1..];
      var tail := Join(rest, " ");
      var gap: string := " ";
      var after := gap + tail;
      assert after[0] == ' ';
      assert IsWord(w);
      assert Join(ws, " ") == w + after;
      WordsOfWordThen(w, after);
      WordsAfterSpace(gap, tail);
      WordsOfJoin(rest);
      assert ws == [w] + rest;
    }
  }

  /** `split(maxsplit=1)` yields a key and a value exactly when the line has
      at least two words; the key is the first word and the value holds the
      remaining ones. */
  lemma SplitFirstWords(line: string)
    ensures SplitFirst(line).None? <==> |Words(line)| < 2
    ensures SplitFirst(line).Some? ==>
      var (key, value) := SplitFirst(line).value;
      Words(line) == [key] + Words(value) && Words(value) != []
  {
    var t := DropSpace(line);
    if t != [] {
      var key := TakeWord(t);
      var rest := DropSpace(t[|key|..]);
      assert Words(line) == [key] + Words(t[|key|..]);
      DropSpaceNoop(rest);
      assert Words(rest) == Words(t[|key|..]);
    }
  }

  /** A key, some whitespace and a value that starts with a non-space
      character come back from `split(maxsplit=1)` unchanged. */
  lemma SplitFirstOfJoin(key: string, sep: string, value: string)
    requires IsWord(key)
    requires sep != [] && forall i :: 0 <= i < |sep| ==> IsSpace(sep[i])
    requires value != [] && !IsSpace(value[0])
    ensures SplitFirst(key + sep + value) == Some((key, value))
  {
    var line := key + sep + value;
    assert line == key + (sep + value);
    DropSpaceNoop(line);
    TakeWordAppend(key, sep + value);
    assert line[|key|..] == sep + value;
    DropSpaceAppend(sep, value);
    DropSpaceNoop(value);
  }

  /** With a non-empty separator, a join is empty exactly when it joins
      nothing or a single empty part. */
  lemma JoinIsEmpty(parts: seq<string>, sep: string)
    requires sep != ""
    ensures Join(parts, sep) == "" <==> |parts| == 0 || (|parts| == 1 && parts[0] == "")
  {
    if |parts| > 1 {
      assert |Join(parts, sep)| >= |sep|;
    }
  }
}

/** The dependency manifest of a window: its text, already decoded, is split
    on '\n' with empty entries removed; each entry names one dependency, and
    the dependencies are loaded in the order of the entries. */
module Manifest {

  /** `text.Split('\n')`: every piece, empty ones included. */
  function SplitAll(text: string): (r: seq<string>)
    ensures |r| >= 1
    ensures forall k :: 0 <= k < |r| ==> '\n' !in r[k]
    decreases |text|
  {
    if text == [] then [""]
    else
      var rest := SplitAll(text[1..]);
      if text[0] == '\n' then [""] + rest else [[text[0]] + rest[0]] + rest[1..]
  }

  /** The pieces that are not empty, in their order. */
  function RemoveEmpty(parts: seq<string>): (r: seq<string>)
    ensures |r| <= |parts|
    ensures forall k :: 0 <= k < |r| ==> r[k] != "" && r[k] in parts
  {
    if parts == [] then []
    else if parts[0] == "" then RemoveEmpty(parts[1..])
    else [parts[0]] + RemoveEmpty(parts[1..])
  }

  /** `text.Split(new char[] {'\n'}, StringSplitOptions.RemoveEmptyEntries)`. */
  function SplitManifest(text: string): (r: seq<string>)
    ensures forall k :: 0 <= k < |r| ==> r[k] != "" && '\n' !in r[k]
  {
    RemoveEmpty(SplitAll(text))
  }

  /** The pieces put back together with the separator between them. */
  function Join(parts: seq<string>): string
    requires |parts| >= 1
  {
    if |parts| == 1 then parts[0] else parts[0] + "\n" + Join(parts[1..])
  }

  function Concat(parts: seq<string>): string {
    if parts == [] then [] else parts[0] + Concat(parts[1..])
  }

  function DropNewlines(text: string): string {
    if text == [] then []
    else if text[0] == '\n' then DropNewlines(text[1..])
    else [text[0]] + DropNewlines(text[1..])
  }

  /** Splitting loses nothing: joining the pieces gives back the text. */
  lemma {:induction false} JoinSplitAll(text: string)
    ensures Join(SplitAll(text)) == text
    decreases |text|
  {
    if text != [] {
      var rest := SplitAll(text[1..]);
      JoinSplitAll(text[1..]);
      if text[0] == '\n' {
        assert Join(SplitAll(text)) == "" + "\n" + Join(rest);
      } else if |rest| == 1 {
        assert Join(SplitAll(text)) == [text[0]] + rest[0];
      } else {
        assert Join(rest) == rest[0] + "\n" + Join(rest[1..]);
        assert Join(SplitAll(text)) == ([text[0]] + rest[0]) + "\n" + Join(rest[1..]);
      }
    }
  }


  lemma {:induction false} RemoveEmptyConcat(parts: seq<string>)
    ensures Concat(RemoveEmpty(parts)) == Concat(parts)
  {
    if parts != [] {
      RemoveEmptyConcat(parts[1..]);
    }
  }

  lemma {:induction false} ConcatSplitAll(text: string)
    ensures Concat(SplitAll(text)) == DropNewlines(text)
    decreases |text|
  {
    if text != [] {
      var rest := SplitAll(text[1..]);
      ConcatSplitAll(text[1..]);
      if text[0] != '\n' {
        assert Concat(rest) == rest[0] + Concat(rest[1..]);
        assert Concat(SplitAll(text)) == ([text[0]] + rest[0]) + Concat(rest[1..]);
      }
    }
  }

  /** The manifest entries, concatenated, are the text's characters other
      than '\n', in their order. */
  lemma SplitManifestEntries(text: string)
    ensures Concat(SplitManifest(text)) == DropNewlines(text)
  {
    RemoveEmptyConcat(SplitAll(text));
    ConcatSplitAll(text);
  }

  /** A line without the separator is one piece. */
  lemma {:induction false} SplitAllLine(line: string)
    requires '\n' !in line
    ensures SplitAll(line) == [line]
    decreases |line|
  {
    if line != [] {
      assert '\n' !in line[1..] by {
        forall k | 0 <= k < |line[1..]| ensures line[1..][k] != '\n' {
          assert line[1..][k] == line[k + 1];
        }
      }
      SplitAllLine(line[1..]);
      assert [line[0]] + line[1..] == line;
    }
  }

  /** Splitting at a separator splits the pieces there. */
  lemma {:induction false} SplitAllAppend(a: string, b: string)
    ensures SplitAll(a + "\n" + b) == SplitAll(a) + SplitAll(b)
    decreases |a|
  {
    var text := a + "\n" + b;
    if a == [] {
      assert text == "\n" + b;
    } else {
      var tail := a[1..] + "\n" + b;
      assert text == [a[0]] + tail;
      SplitAllAppend(a[1..], b);
      var pa := SplitAll(a[1..]);
      var rest := pa + SplitAll(b);
      assert SplitAll(tail) == rest;
      if a[0] == '\n' {
        assert SplitAll(text) == [""] + rest;
        assert SplitAll(a) == [""] + pa;
      } else {
        assert SplitAll(text) == [[a[0]] + rest[0]] + rest[1..];
        assert SplitAll(a) == [[a[0]] + pa[0]] + pa[1..];
        assert rest[0] == pa[0] && rest[1..] == pa[1..] + SplitAll(b);
      }
    }
  }

  /** Removing the empty pieces of two lists in turn is removing them from both. */
  lemma {:induction false} RemoveEmptyAppend(p: seq<string>, q: seq<string>)
    ensures RemoveEmpty(p + q) == RemoveEmpty(p) + RemoveEmpty(q)
  {
    if p != [] {
      assert (p + q)[0] == p[0];
      assert (p + q)[1..] == p[1..] + q;
      RemoveEmptyAppend(p[1..], q);
    } else {
      assert p + q == q;
    }
  }

  /** A line without the separator is one entry when it is not empty, and none when it is. */
  lemma SplitManifestLine(line: string)
    requires '\n' !in line
    ensures SplitManifest(line) == if line == "" then [] else [line]
  {
    SplitAllLine(line);
  }

  /** The entries of two texts joined by '\n' are the entries of the first
      followed by those of the second: each '\n' ends an entry, and no entry
      spans one. */
  lemma SplitManifestAppend(a: string, b: string)
    ensures SplitManifest(a + "\n" + b) == SplitManifest(a) + SplitManifest(b)
  {
    SplitAllAppend(a, b);
    RemoveEmptyAppend(SplitAll(a), SplitAll(b));
  }

}

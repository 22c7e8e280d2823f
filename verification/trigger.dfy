/**
 The blob trigger: the orchestration is started with the element at index 1
 of the uploaded blob's path split on `/` (for `input/report.pdf`, the name
 `report.pdf`).
 */
module Trigger {
  import opened Outcomes

  const Slash := '/'

  /** Message of the `IndexError` raised by `[1]` on a one-element list. */
  const NoSegmentMessage := "list index out of range"

  /** `s.split(sep)` for a one-character separator: the pieces between the
      separators, in order; there is always at least one. */
  function Split(s: string, sep: char): (parts: seq<string>)
    ensures |parts| >= 1
    ensures forall i :: 0 <= i < |parts| ==> sep !in parts[i]
    decreases |s|
  {
    if |s| == 0 then [""]
    else
      var rest := Split(s[1..], sep);
      if s[0] == sep then [""] + rest
      else [[s[0]] + rest[0]] + rest[1..]
  }

  /** `sep.join(parts)`. */
  function Join(parts: seq<string>, sep: char): string
    decreases |parts|
  {
    if |parts| == 0 then ""
    else if |parts| == 1 then parts[0]
    else parts[0] + [sep] + Join(parts[1..], sep)
  }

  /** Joining the pieces again gives back the original string. */
  lemma {:induction false} JoinSplit(s: string, sep: char)
    ensures Join(Split(s, sep), sep) == s
    decreases |s|
  {
    if |s| > 0 {
      var rest := Split(s[1..], sep);
      JoinSplit(s[1..], sep);
      if s[0] == sep {
        assert Split(s, sep) == [""] + rest;
        assert ([""] + rest)[1..] == rest;
      } else {
        var parts := Split(s, sep);
        assert parts[1..] == rest[1..];
        if |rest| == 1 {
          assert Join(rest, sep) == rest[0];
        } else {
          assert Join(rest, sep) == rest[0] + [sep] + Join(rest[1..], sep);
        }
      }
    }
  }

  /** Splitting a join of separator-free pieces gives back the pieces. */
  lemma {:induction false} SplitJoin(parts: seq<string>, sep: char)
    requires |parts| >= 1
    requires forall i :: 0 <= i < |parts| ==> sep !in parts[i]
    ensures Split(Join(parts, sep), sep) == parts
    decreases |parts|, |parts[0]|
  {
    var s := Join(parts, sep);
    if |parts[0]| == 0 {
      if |parts| > 1 {
        SplitJoin(parts[1..], sep);
        assert s == [sep] + Join(parts[1..], sep);
        assert s[1..] == Join(parts[1..], sep);
        assert parts == [""] + parts[1..];
      }
    } else {
      var c := parts[0][0];
      var shorter := [parts[0][1..]] + parts[1..];
      assert shorter[1..] == parts[1..];
      assert forall i :: 1 <= i < |shorter| ==> shorter[i] == parts[i];
      assert sep !in parts[0][1..] by {
        assert forall x :: x in parts[0][1..] ==> x in parts[0];
      }
      SplitJoin(shorter, sep);
      assert s == [c] + Join(shorter, sep) by {
        if |parts| == 1 {
          assert s == parts[0];
        } else {
          assert s == parts[0] + [sep] + Join(parts[1..], sep);
        }
      }
      assert s[1..] == Join(shorter, sep);
      assert c != sep by {
        assert c in parts[0];
      }
      var rest := Split(s[1..], sep);
      assert rest == shorter;
      assert Split(s, sep) == [[c] + rest[0]] + rest[1..];
      assert [c] + parts[0][1..] == parts[0];
      assert parts == [[c] + parts[0][1..]] + parts[1..];
    }
  }

  /** Position of the first `c` in `s`, or `|s|` when there is none. */
  function IndexOf(s: string, c: char): (i: nat)
    ensures i <= |s|
    ensures i < |s| ==> s[i] == c
    ensures c !in s[..i]
  {
    if |s| == 0 then 0
    else if s[0] == c then 0
    else
      var k := IndexOf(s[1..], c);
      assert s[..k + 1] == [s[0]] + s[1..][..k];
      k + 1
  }

  /** The first piece runs up to the first separator; the remaining pieces
      are those of the text after it. */
  lemma {:induction false} SplitAtFirst(s: string, sep: char)
    ensures IndexOf(s, sep) == |s| ==> Split(s, sep) == [s]
    ensures IndexOf(s, sep) < |s| ==>
              Split(s, sep) == [s[..IndexOf(s, sep)]] + Split(s[IndexOf(s, sep) + 1..], sep)
    decreases |s|
  {
    if |s| > 0 && s[0] != sep {
      SplitAtFirst(s[1..], sep);
      var k := IndexOf(s[1..], sep);
      if k < |s[1..]| {
        assert s[1..][k + 1..] == s[k + 2..];
        assert s[..k + 1] == [s[0]] + s[1..][..k];
      } else {
        assert s == [s[0]] + s[1..];
      }
    }
  }

  /** `myblob.name.split("/")[1]`: an `IndexError` when the path has no `/`. */
  function BlobNameOf(path: string): (r: Result<string>)
    ensures r.Ok? ==> Slash !in r.value
  {
    var parts := Split(path, Slash);
    if |parts| > 1 then Ok(parts[1]) else Fail(NoSegmentMessage)
  }

  /** The same identifier located by position: the text after the first `/`
      up to the next `/` or the end of the path. */
  function SegmentAfterFirstSlash(path: string): Result<string> {
    var i := IndexOf(path, Slash);
    if i == |path| then Fail(NoSegmentMessage)
    else
      var rest := path[i + 1..];
      Ok(rest[..IndexOf(rest, Slash)])
  }

  /** The orchestration input is defined exactly when the path has a `/`,
      and it is only the segment after the first `/`: any further segments
      of the path are dropped. */
  lemma BlobNameIsSecondSegment(path: string)
    ensures BlobNameOf(path) == SegmentAfterFirstSlash(path)
    ensures BlobNameOf(path).Ok? <==> Slash in path
  {
    SplitAtFirst(path, Slash);
    var i := IndexOf(path, Slash);
    if i < |path| {
      var rest := path[i + 1..];
      SplitAtFirst(rest, Slash);
      var j := IndexOf(rest, Slash);
      assert Split(rest, Slash)[0] == rest[..j] by {
        if j == |rest| {
          assert rest[..j] == rest;
        }
      }
      assert Split(path, Slash)[1] == Split(rest, Slash)[0];
      assert Slash in path;
    } else {
      assert path[..i] == path;
    }
  }

  lemma {:induction false} IndexOfAfter(a: string, b: string, c: char)
    requires c !in a
    ensures IndexOf(a + [c] + b, c) == |a|
    decreases |a|
  {
    if |a| > 0 {
      assert (a + [c] + b)[1..] == a[1..] + [c] + b;
      IndexOfAfter(a[1..], b, c);
    }
  }

  /** For a blob `file` in folder `folder` of container `container`, the
      orchestration is started with the folder name alone. */
  lemma NestedPathGivesFolder(container: string, folder: string, file: string)
    requires Slash !in container && Slash !in folder
    ensures BlobNameOf(container + "/" + folder + "/" + file) == Ok(folder)
  {
    var path := container + "/" + folder + "/" + file;
    BlobNameIsSecondSegment(path);
    IndexOfAfter(container, folder + "/" + file, Slash);
    assert path == container + [Slash] + (folder + "/" + file);
    var rest := path[|container| + 1..];
    assert rest == folder + [Slash] + file;
    IndexOfAfter(folder, file, Slash);
    assert rest[..|folder|] == folder;
    assert SegmentAfterFirstSlash(path) == Ok(rest[..|folder|]);
  }
}

/**
 The `write_doc` activity: derive the output blob name from the input blob
 name and a timestamp, upload the summary content under it, and return a
 reference to it. The uploaded name is sanitised; the returned reference is
 built from the unsanitised base name, so the two differ whenever the input
 name or the timestamp contains a `.` or a `:`.
 */
module Naming {
  import opened Outcomes
  import opened Summaries

  const OutputContainer := "output"
  const Extension := ".txt"

  /** The characters `write_doc` replaces by `-`. */
  predicate Replaced(c: char) {
    c == '.' || c == ':'
  }

  predicate HasReplaced(s: string) {
    exists i :: 0 <= i < |s| && Replaced(s[i])
  }

  /** `s.replace(target, with)` for one-character `target` and `with`. */
  function ReplaceChar(s: string, target: char, with: char): (r: string)
    ensures |r| == |s|
    ensures forall i :: 0 <= i < |s| ==> r[i] == (if s[i] == target then with else s[i])
  {
    if |s| == 0 then ""
    else [if s[0] == target then with else s[0]] + ReplaceChar(s[1..], target, with)
  }

  /** `s.replace(".", "-").replace(":", "-")`: every `.` and `:` becomes `-`,
      every other character stays where it was. */
  function Sanitize(s: string): (r: string)
    ensures |r| == |s|
    ensures forall i :: 0 <= i < |s| ==> r[i] == (if Replaced(s[i]) then '-' else s[i])
    ensures !HasReplaced(r)
  {
    ReplaceChar(ReplaceChar(s, '.', '-'), ':', '-')
  }

  /** The name before sanitising: `blobName + "-" + str(datetime.now())`. */
  function BaseName(blobName: string, timestamp: string): string {
    blobName + "-" + timestamp
  }

  /** The name the summary is uploaded under. */
  function UploadName(blobName: string, timestamp: string): (name: string)
    ensures |name| == |blobName| + |timestamp| + 5
    ensures name[|name| - 4..] == Extension
    ensures !HasReplaced(name[..|name| - 4])
  {
    Sanitize(BaseName(blobName, timestamp)) + Extension
  }

  /** The reference `write_doc` returns: the unsanitised base plus `.txt`. */
  function ReturnedReference(blobName: string, timestamp: string): (ref: string)
    ensures |ref| == |blobName| + |timestamp| + 5
    ensures ref[|ref| - 4..] == Extension
  {
    BaseName(blobName, timestamp) + Extension
  }

  lemma {:induction false} SanitizeIdempotent(s: string)
    ensures Sanitize(Sanitize(s)) == Sanitize(s)
  {
    var once := Sanitize(s);
    var twice := Sanitize(once);
    assert forall i :: 0 <= i < |s| ==> twice[i] == once[i];
  }

  /** Sanitising leaves a string unchanged exactly when it has no `.` or `:`. */
  lemma SanitizeFixedIff(s: string)
    ensures Sanitize(s) == s <==> !HasReplaced(s)
  {
    if HasReplaced(s) {
      var i :| 0 <= i < |s| && Replaced(s[i]);
      assert Sanitize(s)[i] != s[i];
    } else {
      assert forall i :: 0 <= i < |s| ==> Sanitize(s)[i] == s[i];
    }
  }

  /** Sanitising works character by character, so it distributes over `+`. */
  lemma SanitizeConcat(a: string, b: string)
    ensures Sanitize(a + b) == Sanitize(a) + Sanitize(b)
  {
  }

  lemma HasReplacedConcat(a: string, b: string)
    ensures HasReplaced(a + b) <==> HasReplaced(a) || HasReplaced(b)
  {
    if HasReplaced(a) {
      var i :| 0 <= i < |a| && Replaced(a[i]);
      assert (a + b)[i] == a[i];
    }
    if HasReplaced(b) {
      var i :| 0 <= i < |b| && Replaced(b[i]);
      assert (a + b)[|a| + i] == b[i];
    }
    if HasReplaced(a + b) {
      var i :| 0 <= i < |a + b| && Replaced((a + b)[i]);
      if i < |a| {
        assert a[i] == (a + b)[i];
      } else {
        assert b[i - |a|] == (a + b)[i];
      }
    }
  }

  /** The uploaded name and the returned reference share their length and
      their `.txt` suffix, and agree at every position that does not hold a
      `.` or `:` of the returned reference's base. They are equal exactly
      when neither the blob name nor the timestamp contains `.` or `:`. */
  lemma {:induction false} ReferenceMismatch(blobName: string, timestamp: string)
    ensures var name := UploadName(blobName, timestamp);
            var ref := ReturnedReference(blobName, timestamp);
            && name == Sanitize(ref[..|ref| - 4]) + Extension
            && (name == ref <==> !HasReplaced(blobName) && !HasReplaced(timestamp))
  {
    var base := BaseName(blobName, timestamp);
    var name := UploadName(blobName, timestamp);
    var ref := ReturnedReference(blobName, timestamp);
    assert ref[..|ref| - 4] == base;
    SanitizeFixedIff(base);
    if name == ref {
      assert name[..|base|] == Sanitize(base);
      assert ref[..|base|] == base;
    }
    HasReplacedConcat(blobName, "-");
    assert !HasReplaced("-") by {
      assert "-"[0] == '-';
    }
    HasReplacedConcat(blobName + "-", timestamp);
  }

  /** The input of `write_doc`: `{"blobName": ..., "summary": ...}`. */
  datatype WriteInput = WriteInput(blobName: string, summary: Summary)

  /** One `upload_blob` call on a container. */
  datatype Upload = Upload(container: string, name: string, data: string)

  /** The upload `write_doc` performs at time `timestamp`. */
  function UploadOf(input: WriteInput, timestamp: string): Upload {
    Upload(OutputContainer, UploadName(input.blobName, timestamp), input.summary.content)
  }

  /** The activity: `store` stands for blob storage, which performs an upload
      or raises an exception with a message. A failed upload fails the
      activity with that message; otherwise the unsanitised reference is
      returned. */
  function WriteDoc(input: WriteInput, timestamp: string, store: Upload -> Result<()>): (r: Result<string>)
    ensures var stored := store(Upload("output", UploadName(input.blobName, timestamp), input.summary.content));
            && (r.Ok? <==> stored.Ok?)
            && (r.Fail? ==> r.error == stored.error)
    ensures r.Ok? ==> r.value == ReturnedReference(input.blobName, timestamp)
    ensures r.Ok? ==> |r.value| == |input.blobName| + |timestamp| + 5
    ensures r.Ok? ==> r.value[..|input.blobName|] == input.blobName
    ensures r.Ok? ==> UploadName(input.blobName, timestamp) == Sanitize(r.value[..|r.value| - 4]) + Extension
  {
    match store(UploadOf(input, timestamp))
    case Fail(message) => Fail(message)
    case Ok(_) =>
      ReferenceMismatch(input.blobName, timestamp);
      Ok(ReturnedReference(input.blobName, timestamp))
  }
}

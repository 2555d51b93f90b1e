/** `load_posts`: check that every post record carries the four fields the
    generator needs, and pass the title and content through `censor_text`.
    A record is the JSON object as a map from field name to text. */
module Posts {
  import opened Common

  type Record = map<string, string>

  /** The fields every post must have, in the order they are checked. */
  const RequiredFields: seq<string> := ["title", "content", "post_id", "image"]

  /** `censor_text`: the hook returns its input unchanged. */
  function CensorText(text: string): string {
    text
  }

  /** Every field of `fields` is present in `record`. */
  predicate HasAll(fields: seq<string>, record: Record) {
    forall k :: 0 <= k < |fields| ==> fields[k] in record
  }

  /** The record carries all required fields. */
  predicate Complete(record: Record) {
    HasAll(RequiredFields, record)
  }

  /** The first field of `fields`, in order, that `record` lacks. */
  function FirstMissing(fields: seq<string>, record: Record): (r: Option<string>)
    ensures r.None? <==> HasAll(fields, record)
    ensures r.Some? ==>
              exists k :: 0 <= k < |fields| && fields[k] == r.value && r.value !in record
                          && HasAll(fields[..k], record)
  {
    if fields == [] then None
    else if fields[0] !in record then
      assert HasAll(fields[..0], record);
      Some(fields[0])
    else
      var r := FirstMissing(fields[1..], record);
      assert HasAll(fields, record) <==> HasAll(fields[1..], record) by {
        if HasAll(fields[1..], record) {
          forall k | 0 <= k < |fields| ensures fields[k] in record {
            if k > 0 {
              assert fields[k] == fields[1..][k - 1];
            }
          }
        }
      }
      if r.Some? then
        var k :| 0 <= k < |fields[1..]| && fields[1..][k] == r.value && r.value !in record
                 && HasAll(fields[1..][..k], record);
        assert fields[k + 1] == r.value;
        assert HasAll(fields[..k + 1], record) by {
          var prefix := fields[..k + 1];
          forall j | 0 <= j < |prefix| ensures prefix[j] in record {
            if j > 0 {
              assert prefix[j] == fields[1..][..k][j - 1];
            }
          }
        }
        r
      else
        r
  }

  /** The error `load_posts` raises for `records`, checking from record `i`
      on: the first incomplete record, and its first missing field. Records
      are counted from 1 in the message. */
  function FirstErrorFrom(records: seq<Record>, i: nat): Option<Error>
    requires i <= |records|
    decreases |records| - i
  {
    if i == |records| then None
    else
      match FirstMissing(RequiredFields, records[i])
      case Some(f) => Some(MissingField(i + 1, f))
      case None => FirstErrorFrom(records, i + 1)
  }

  /** There is no error exactly when every record from `i` on is complete. */
  lemma {:induction false} FirstErrorNone(records: seq<Record>, i: nat)
    requires i <= |records|
    ensures FirstErrorFrom(records, i).None? <==> forall j :: i <= j < |records| ==> Complete(records[j])
    decreases |records| - i
  {
    if i < |records| {
      FirstErrorNone(records, i + 1);
    }
  }

  /** An error names the first incomplete record from `i` on, counted from
      1, and that record's first missing field. */
  lemma {:induction false} FirstErrorAt(records: seq<Record>, i: nat) returns (j: nat, f: string)
    requires i <= |records| && FirstErrorFrom(records, i).Some?
    ensures i <= j < |records|
    ensures FirstErrorFrom(records, i) == Some(MissingField(j + 1, f))
    ensures FirstMissing(RequiredFields, records[j]) == Some(f)
    ensures forall m :: i <= m < j ==> Complete(records[m])
    decreases |records| - i
  {
    if FirstMissing(RequiredFields, records[i]).Some? {
      j, f := i, FirstMissing(RequiredFields, records[i]).value;
    } else {
      j, f := FirstErrorAt(records, i + 1);
    }
  }

  /** What `load_posts` returns for the parsed JSON list `records`. */
  function LoadedPosts(records: seq<Record>): Result<seq<Record>> {
    match FirstErrorFrom(records, 0)
    case Some(e) => Err(e)
    case None => Ok(records)
  }

  /** `load_posts` after the JSON has been read: check each record's fields
      in order, raising on the first one missing, and censor the title and
      content of every record that passed. */
  method LoadPosts(records: seq<Record>) returns (r: Result<seq<Record>>)
    ensures r == LoadedPosts(records)
  {
    var posts := records;
    for i := 0 to |records|
      invariant forall j :: 0 <= j < i ==> Complete(records[j])
      invariant posts == records
    {
      for k := 0 to |RequiredFields|
        invariant HasAll(RequiredFields[..k], records[i])
      {
        var field := RequiredFields[k];
        if field !in posts[i] {
          assert FirstMissing(RequiredFields, records[i]) == Some(field) by {
            FirstMissingAt(RequiredFields, records[i], k);
          }
          FirstErrorSkips(records, 0, i);
          return Err(MissingField(i + 1, field));
        }
      }
      assert RequiredFields[..|RequiredFields|] == RequiredFields;
      assert RequiredFields[0] in posts[i] && RequiredFields[1] in posts[i];
      var post := posts[i];
      post := post["title" := CensorText(post["title"])];
      post := post["content" := CensorText(post["content"])];
      assert post == records[i];
      posts := posts[i := post];
    }
    FirstErrorSkips(records, 0, |records|);
    r := Ok(posts);
  }

  /** A field missing from `record` whose predecessors are all present is
      the first missing one. */
  lemma {:induction false} FirstMissingAt(fields: seq<string>, record: Record, k: nat)
    requires k < |fields| && fields[k] !in record && HasAll(fields[..k], record)
    ensures FirstMissing(fields, record) == Some(fields[k])
  {
    if k > 0 {
      assert fields[0] == fields[..k][0];
      assert HasAll(fields[1..][..k - 1], record) by {
        var prefix := fields[1..][..k - 1];
        forall j | 0 <= j < |prefix| ensures prefix[j] in record {
          assert prefix[j] == fields[..k][j + 1];
        }
      }
      FirstMissingAt(fields[1..], record, k - 1);
    }
  }

  /** Complete records at the front do not change the first error. */
  lemma {:induction false} FirstErrorSkips(records: seq<Record>, i: nat, j: nat)
    requires i <= j <= |records|
    requires forall m :: i <= m < j ==> Complete(records[m])
    ensures FirstErrorFrom(records, i) == FirstErrorFrom(records, j)
    decreases j - i
  {
    if i < j {
      FirstErrorSkips(records, i + 1, j);
    }
  }

  /** `load_posts` succeeds exactly when every record is complete, and then
      returns the records unchanged: censoring leaves them as they were. */
  lemma LoadedPostsOk(records: seq<Record>)
    ensures LoadedPosts(records).Ok? <==> forall j :: 0 <= j < |records| ==> Complete(records[j])
    ensures LoadedPosts(records).Ok? ==> LoadedPosts(records).value == records
  {
    FirstErrorNone(records, 0);
  }

  /** When `load_posts` fails, it names record `n` (counted from 1) and a
      required field `f` such that every record before it is complete, `f`
      is missing from it, and every required field listed before `f` is
      present in it. */
  lemma LoadedPostsErr(records: seq<Record>)
    ensures LoadedPosts(records).Err? ==>
              exists n: nat, f :: LoadedPosts(records).error == MissingField(n, f)
                && 1 <= n <= |records|
                && (forall m :: 0 <= m < n - 1 ==> Complete(records[m]))
                && exists k :: 0 <= k < |RequiredFields| && RequiredFields[k] == f
                               && f !in records[n - 1] && HasAll(RequiredFields[..k], records[n - 1])
  {
    if LoadedPosts(records).Err? {
      var j, f := FirstErrorAt(records, 0);
      assert LoadedPosts(records).error == MissingField(j + 1, f);
    }
  }
}

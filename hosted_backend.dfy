/** The hosted backend as the submission code sees it: a document store that
    accepts uploads by path and hands out public URLs, and a record store that
    accepts inserted rows. Its replies are not modelled; they are given as
    functions when the backend is created. What the model keeps is the log of
    calls made to it, in order. */
module HostedBackend {
  import opened Types

  /** A column value of an inserted row. */
  datatype Value = Str(s: string) | Null

  /** A row as the client builds it: column name to value. */
  type Row = map<string, Value>

  /** One request to the backend. */
  datatype Call = UploadCall(path: string) | InsertCall(row: Row)

  /** How the backend answers: the error an upload to a path reports (if
      any), the public URL of a stored path, and the error an insert reports
      (if any). */
  datatype Store = Store(
    uploadError: string -> Option<string>,
    publicUrl: string -> string,
    insertError: Row -> Option<string>)

  predicate IsInsert(c: Call) { c.InsertCall? }

  /** The number of inserts in a log. */
  function InsertCount(calls: seq<Call>): (n: nat)
    ensures n <= |calls|
    ensures n == 0 <==> forall i :: 0 <= i < |calls| ==> !calls[i].InsertCall?
  {
    if calls == [] then 0 else (if calls[0].InsertCall? then 1 else 0) + InsertCount(calls[1..])
  }

  lemma {:induction false} InsertCountAppend(a: seq<Call>, b: seq<Call>)
    ensures InsertCount(a + b) == InsertCount(a) + InsertCount(b)
  {
    if a == [] {
      assert a + b == b;
    } else {
      assert (a + b)[0] == a[0] && (a + b)[1..] == a[1..] + b;
      InsertCountAppend(a[1..], b);
    }
  }

  class Backend {
    const store: Store
    var calls: seq<Call>

    constructor (store: Store)
      ensures this.store == store && calls == []
    {
      this.store := store;
      calls := [];
    }

    /** `storage.from('submissions').upload(path, file)`. */
    method Upload(path: string) returns (error: Option<string>)
      modifies this
      ensures calls == old(calls) + [UploadCall(path)]
      ensures error == store.uploadError(path)
    {
      calls := calls + [UploadCall(path)];
      error := store.uploadError(path);
    }

    /** `storage.from('submissions').getPublicUrl(path)`: no request is made. */
    function PublicUrl(path: string): string
    {
      store.publicUrl(path)
    }

    /** `from('applications').insert(row)`. */
    method Insert(row: Row) returns (error: Option<string>)
      modifies this
      ensures calls == old(calls) + [InsertCall(row)]
      ensures error == store.insertError(row)
    {
      calls := calls + [InsertCall(row)];
      error := store.insertError(row);
    }
  }
}

/** The deterministic part of the data layer (src/lib/dbOperations.ts):
    status-message composition, storage-path generation with file-name
    sanitisation, the page range requested by the admin listing, the
    per-status count loop and the shape of a status update. The calls into
    the hosted store themselves are not part of this module; their replies
    are parameters. */
module DbOperations {
  import opened Types
  import Strings
  import Lists

  // ---------------------------------------------------------------------
  // messageOps.createStatusMessage

  /** The fixed text for each status: a symbol, then the sentence. */
  function StatusTemplate(s: SubmissionStatus): string
  {
    match s
    case Pending => ['📋'] + " Your application has been received and is under review."
    case Approved => ['✅'] + " Congratulations! Your application has been approved. You can now proceed."
    case Rejected => ['❌'] + " Your application requires additional information. Please see admin notes."
  }

  /** What separates the template from the administrator's notes. */
  const NotesSeparator: string := "\n\nAdmin Notes: "

  /** The full message body: the template, followed by the notes only when
      they are present and non-empty. */
  function ComposeStatusMessage(status: SubmissionStatus, notes: Option<string>): (m: string)
    ensures |m| >= |StatusTemplate(status)|
    ensures m[..|StatusTemplate(status)|] == StatusTemplate(status)
    ensures Truthy(notes) <==> |m| > |StatusTemplate(status)|
  {
    if Truthy(notes) then StatusTemplate(status) + NotesSeparator + notes.value
    else StatusTemplate(status)
  }

  /** The message record handed to the store's insert. */
  function CreateStatusMessage(submissionId: string, userId: string, status: SubmissionStatus, notes: Option<string>): (r: NewMessage)
    ensures r.submissionId == submissionId && r.userId == userId && r.status == status
    ensures |r.message| >= |StatusTemplate(status)|
    ensures r.message[..|StatusTemplate(status)|] == StatusTemplate(status)
    ensures ParseStatusMessage(r.message) == Some((status, if Truthy(notes) then notes else None))
  {
    StatusMessageRoundTrip(status, notes);
    NewMessage(submissionId, userId, ComposeStatusMessage(status, notes), status)
  }

  predicate StartsWith(prefix: string, s: string) {
    |prefix| <= |s| && s[..|prefix|] == prefix
  }

  /** Reads a composed message back into its status and its notes. */
  function ParseStatusMessage(m: string): Option<(SubmissionStatus, Option<string>)>
  {
    if StartsWith(StatusTemplate(Pending), m) then ParseNotes(Pending, m[|StatusTemplate(Pending)|..])
    else if StartsWith(StatusTemplate(Approved), m) then ParseNotes(Approved, m[|StatusTemplate(Approved)|..])
    else if StartsWith(StatusTemplate(Rejected), m) then ParseNotes(Rejected, m[|StatusTemplate(Rejected)|..])
    else None
  }

  function ParseNotes(s: SubmissionStatus, rest: string): Option<(SubmissionStatus, Option<string>)>
  {
    if rest == [] then Some((s, None))
    else if StartsWith(NotesSeparator, rest) && |rest| > |NotesSeparator| then
      Some((s, Some(rest[|NotesSeparator|..])))
    else None
  }

  lemma NotStartsWith(p: string, m: string)
    requires |p| > 0 && |m| > 0 && p[0] != m[0]
    ensures !StartsWith(p, m)
  {
    if |p| <= |m| {
      assert m[..|p|][0] == m[0];
    }
  }

  /** The templates begin with three different symbols. */
  lemma TemplateHeads()
    ensures StatusTemplate(Pending)[0] == '📋'
    ensures StatusTemplate(Approved)[0] == '✅'
    ensures StatusTemplate(Rejected)[0] == '❌'
  {
  }

  /** Whatever follows a template is read as the notes part. */
  lemma ParseAfterTemplate(status: SubmissionStatus, rest: string)
    ensures ParseStatusMessage(StatusTemplate(status) + rest) == ParseNotes(status, rest)
  {
    var m := StatusTemplate(status) + rest;
    assert m[..|StatusTemplate(status)|] == StatusTemplate(status);
    assert m[|StatusTemplate(status)|..] == rest;
    assert m[0] == StatusTemplate(status)[0];
    TemplateHeads();
    match status
    case Pending =>
    case Approved =>
      NotStartsWith(StatusTemplate(Pending), m);
    case Rejected =>
      NotStartsWith(StatusTemplate(Pending), m);
      NotStartsWith(StatusTemplate(Approved), m);
  }

  /** The separator followed by non-empty notes is read as those notes. */
  lemma ParseNotesAfterSeparator(status: SubmissionStatus, text: string)
    requires text != ""
    ensures ParseNotes(status, NotesSeparator + text) == Some((status, Some(text)))
  {
    var rest := NotesSeparator + text;
    assert rest[..|NotesSeparator|] == NotesSeparator;
    assert rest[|NotesSeparator|..] == text;
  }

  /** A message with notes reads back as its status and those notes. */
  lemma RoundTripWithNotes(status: SubmissionStatus, text: string)
    requires text != ""
    ensures ParseStatusMessage(ComposeStatusMessage(status, Some(text))) == Some((status, Some(text)))
  {
    var rest := NotesSeparator + text;
    assert ComposeStatusMessage(status, Some(text)) == StatusTemplate(status) + rest;
    ParseAfterTemplate(status, rest);
    ParseNotesAfterSeparator(status, text);
  }

  /** A message without notes reads back as its status alone. */
  lemma RoundTripWithoutNotes(status: SubmissionStatus, notes: Option<string>)
    requires !Truthy(notes)
    ensures ParseStatusMessage(ComposeStatusMessage(status, notes)) == Some((status, None))
  {
    assert ComposeStatusMessage(status, notes) == StatusTemplate(status) + [];
    ParseAfterTemplate(status, []);
  }

  /** The composed message determines the status it was written for and
      the notes that were appended, so the three templates never collide
      and an empty note is the same as none. */
  lemma StatusMessageRoundTrip(status: SubmissionStatus, notes: Option<string>)
    ensures ParseStatusMessage(ComposeStatusMessage(status, notes))
         == Some((status, if Truthy(notes) then notes else None))
  {
    if Truthy(notes) {
      RoundTripWithNotes(status, notes.value);
    } else {
      RoundTripWithoutNotes(status, notes);
    }
  }

  // ---------------------------------------------------------------------
  // fileOps.generatePath

  /** The characters the sanitiser keeps: `[a-zA-Z0-9.-]`. */
  predicate IsSafeChar(c: char) {
    ('a' <= c <= 'z') || ('A' <= c <= 'Z') || ('0' <= c <= '9') || c == '.' || c == '-'
  }

  /** The characters a sanitised name may hold: `[a-zA-Z0-9._-]`. */
  predicate IsPathChar(c: char) {
    IsSafeChar(c) || c == '_'
  }

  /** A character outside the Basic Multilingual Plane is two UTF-16 code
      units, and the JavaScript replace works on code units. */
  predicate IsAstral(c: char) {
    c as int >= 0x1_0000
  }

  /** The length of a string as JavaScript counts it. */
  function Utf16Length(s: string): nat
  {
    if s == [] then 0 else (if IsAstral(s[0]) then 2 else 1) + Utf16Length(s[1..])
  }

  /** The replacement for one character: itself when safe, otherwise one
      underscore per UTF-16 code unit. */
  function SanitizeChar(c: char): (r: string)
  {
    if IsSafeChar(c) then [c] else if IsAstral(c) then "__" else "_"
  }

  /** `fileName.replace(/[^a-zA-Z0-9.-]/g, '_')`. */
  function Sanitize(name: string): (r: string)
    ensures |r| == Utf16Length(name)
    ensures forall i :: 0 <= i < |r| ==> IsPathChar(r[i])
  {
    if name == [] then [] else SanitizeChar(name[0]) + Sanitize(name[1..])
  }

  lemma {:induction false} SanitizeAppend(a: string, b: string)
    ensures Sanitize(a + b) == Sanitize(a) + Sanitize(b)
  {
    if a == [] {
      assert a + b == b;
    } else {
      assert (a + b)[0] == a[0] && (a + b)[1..] == a[1..] + b;
      SanitizeAppend(a[1..], b);
      calc {
        Sanitize(a + b);
        SanitizeChar(a[0]) + Sanitize(a[1..] + b);
        SanitizeChar(a[0]) + (Sanitize(a[1..]) + Sanitize(b));
        (SanitizeChar(a[0]) + Sanitize(a[1..])) + Sanitize(b);
      }
    }
  }

  /** On a string whose characters are all single code units, sanitising
      keeps the length and works position by position: safe characters stay,
      every other becomes an underscore. */
  lemma {:induction false} SanitizeOneForOne(name: string)
    requires forall i :: 0 <= i < |name| ==> !IsAstral(name[i])
    ensures |Sanitize(name)| == |name|
    ensures forall i :: 0 <= i < |name| ==>
      Sanitize(name)[i] == (if IsSafeChar(name[i]) then name[i] else '_')
  {
    if name != [] {
      SanitizeOneForOne(name[1..]);
      var r := Sanitize(name);
      assert r == SanitizeChar(name[0]) + Sanitize(name[1..]);
      forall i | 1 <= i < |name| ensures r[i] == Sanitize(name[1..])[i - 1] {}
    }
  }

  /** A name made of path characters is its own sanitisation. */
  lemma {:induction false} SanitizeFixesPathChars(name: string)
    requires forall i :: 0 <= i < |name| ==> IsPathChar(name[i])
    ensures Sanitize(name) == name
  {
    if name != [] {
      SanitizeFixesPathChars(name[1..]);
      assert [name[0]] + name[1..] == name;
    }
  }

  /** Sanitising twice is sanitising once. */
  lemma SanitizeIdempotent(name: string)
    ensures Sanitize(Sanitize(name)) == Sanitize(name)
  {
    SanitizeFixesPathChars(Sanitize(name));
  }

  /** `userId/documentType/timestamp_sanitizedName`. The timestamp is passed
      in; the source reads the clock. */
  function GeneratePath(userId: string, documentType: string, fileName: string, timestamp: nat): string
  {
    userId + "/" + documentType + "/" + Strings.Decimal(timestamp) + "_" + Sanitize(fileName)
  }

  /** A generated path has exactly three segments: the user, the document
      type, and the timestamped sanitised name; and the timestamp is the
      part of the last segment before its first underscore. */
  lemma GeneratePathSegments(userId: string, documentType: string, fileName: string, timestamp: nat)
    requires '/' !in userId && '/' !in documentType
    ensures Strings.Split(GeneratePath(userId, documentType, fileName, timestamp), '/')
         == [userId, documentType, Strings.Decimal(timestamp) + "_" + Sanitize(fileName)]
    ensures Strings.Split(Strings.Decimal(timestamp) + "_" + Sanitize(fileName), '_')[0] == Strings.Decimal(timestamp)
    ensures Strings.ParseDecimal(Strings.Decimal(timestamp)) == timestamp
  {
    var ts := Strings.Decimal(timestamp);
    var last := ts + "_" + Sanitize(fileName);
    assert '/' !in ts && '_' !in ts;
    assert '/' !in last;
    assert GeneratePath(userId, documentType, fileName, timestamp) == userId + ['/'] + documentType + ['/'] + last;
    Strings.SplitThree(userId, documentType, last, '/');
    Strings.SplitField(ts, '_', Sanitize(fileName));
    Strings.DecimalRoundTrip(timestamp);
  }

  // ---------------------------------------------------------------------
  // submissionOps.getAll

  /** An inclusive row range `[from, to]`, as the store's `range` takes it. */
  datatype Range = Range(from: int, to: int)

  const DefaultLimit: int := 50
  const DefaultOffset: int := 0

  /** The range `getAll(limit, offset)` requests; an omitted argument takes
      its default. */
  function GetAllRange(limit: Option<int>, offset: Option<int>): (r: Range)
    ensures r.from == offset.GetOr(DefaultOffset)
    ensures r.to - r.from + 1 == limit.GetOr(DefaultLimit)
  {
    var l := limit.GetOr(DefaultLimit);
    var o := offset.GetOr(DefaultOffset);
    Range(o, o + l - 1)
  }

  function Min(a: int, b: int): int { if a <= b then a else b }
  function Max(a: int, b: int): int { if a <= b then b else a }

  /** The rows of an ordered result whose positions lie in the range. */
  function RowsInRange<T>(rows: seq<T>, r: Range): (page: seq<T>)
    requires r.from >= 0
    ensures |page| == Max(0, Min(r.to + 1, |rows|) - Min(r.from, |rows|))
    ensures forall i :: 0 <= i < |page| ==> page[i] == rows[r.from + i]
  {
    var lo := Min(r.from, |rows|);
    var hi := Max(lo, Min(r.to + 1, |rows|));
    rows[lo..hi]
  }

  /** With the defaults, the first fifty rows are requested. */
  lemma GetAllDefaults()
    ensures GetAllRange(None, None) == Range(0, 49)
  {
  }

  /** A page holds `limit` rows while the table has that many, and the page
      at `offset + limit` continues exactly where the one at `offset` ends. */
  lemma PagesTile<T>(rows: seq<T>, limit: nat, offset: nat)
    ensures offset + limit <= |rows| ==> |RowsInRange(rows, GetAllRange(Some(limit), Some(offset)))| == limit
    ensures RowsInRange(rows, GetAllRange(Some(limit), Some(offset)))
          + RowsInRange(rows, GetAllRange(Some(limit), Some(offset + limit)))
         == RowsInRange(rows, GetAllRange(Some(2 * limit), Some(offset)))
  {
    var n := |rows|;
    var a := Min(offset, n);
    var b := Min(offset + limit, n);
    var c := Min(offset + 2 * limit, n);
    assert RowsInRange(rows, GetAllRange(Some(limit), Some(offset))) == rows[a..b];
    assert RowsInRange(rows, GetAllRange(Some(limit), Some(offset + limit))) == rows[b..c];
    assert RowsInRange(rows, GetAllRange(Some(2 * limit), Some(offset))) == rows[a..c];
    assert rows[a..b] + rows[b..c] == rows[a..c];
  }

  // ---------------------------------------------------------------------
  // submissionOps.countByStatus

  /** The store's reply to one exact-count query. */
  datatype CountReply = CountReply(count: Option<nat>, error: Option<string>)

  /** What the loop records for one reply: the count (a missing count reads
      as zero), or zero when the query failed. */
  function RecordedCount(reply: CountReply): (n: nat)
    ensures reply.error.Some? ==> n == 0
    ensures reply.count.None? ==> n == 0
    ensures reply.error.None? && reply.count.Some? ==> n == reply.count.value
  {
    if reply.error.None? then reply.count.GetOr(0) else 0
  }

  /** Queries each status in turn and records its count; `query` stands for
      the store's answer to the count request for one status. */
  method CountByStatus(query: SubmissionStatus -> CountReply) returns (counts: map<SubmissionStatus, nat>)
    ensures counts.Keys == {Pending, Approved, Rejected}
    ensures forall s :: s in counts ==> counts[s] == RecordedCount(query(s))
  {
    counts := map[Pending := 0, Approved := 0, Rejected := 0];
    for i := 0 to |AllStatuses|
      invariant counts.Keys == {Pending, Approved, Rejected}
      invariant forall j :: 0 <= j < i ==> counts[AllStatuses[j]] == RecordedCount(query(AllStatuses[j]))
      invariant forall j :: i <= j < |AllStatuses| ==> counts[AllStatuses[j]] == 0
    {
      var status := AllStatuses[i];
      var reply := query(status);
      if reply.error.None? {
        counts := counts[status := reply.count.GetOr(0)];
      }
    }
    assert forall s :: s in counts ==> s == AllStatuses[0] || s == AllStatuses[1] || s == AllStatuses[2];
  }

  // ---------------------------------------------------------------------
  // submissionOps.updateStatus

  /** The fields the update writes on one row. An absent note is dropped
      from the request body (JSON has no `undefined`), so it leaves the
      stored note as it was. */
  function ApplyStatusUpdate(row: Submission, status: SubmissionStatus, adminNotes: Option<string>, now: string): (r: Submission)
    ensures r.status == status && r.updatedAt == now
    ensures r.adminNotes == (if adminNotes.Some? then adminNotes else row.adminNotes)
    ensures r.(status := row.status, adminNotes := row.adminNotes, updatedAt := row.updatedAt) == row
  {
    row.(status := status, adminNotes := if adminNotes.Some? then adminNotes else row.adminNotes, updatedAt := now)
  }

  /** The table after `updateStatus(id, status, adminNotes)` at time `now`. */
  function UpdateStatusTable(rows: seq<Submission>, id: string, status: SubmissionStatus, adminNotes: Option<string>, now: string): (r: seq<Submission>)
    ensures |r| == |rows|
    ensures forall i :: 0 <= i < |rows| && rows[i].id != id ==> r[i] == rows[i]
    ensures forall i :: 0 <= i < |rows| && rows[i].id == id ==> r[i] == ApplyStatusUpdate(rows[i], status, adminNotes, now)
  {
    Lists.UpdateWhere(rows, (x: Submission) => x.id == id, (x: Submission) => ApplyStatusUpdate(x, status, adminNotes, now))
  }

  /** Setting a status again, later, only moves the update time: the table
      is the one a single update at the later time gives. */
  lemma UpdateStatusRepeat(rows: seq<Submission>, id: string, status: SubmissionStatus, adminNotes: Option<string>, t1: string, t2: string)
    ensures UpdateStatusTable(UpdateStatusTable(rows, id, status, adminNotes, t1), id, status, adminNotes, t2)
         == UpdateStatusTable(rows, id, status, adminNotes, t2)
  {
    var once := UpdateStatusTable(rows, id, status, adminNotes, t1);
    var twice := UpdateStatusTable(once, id, status, adminNotes, t2);
    var direct := UpdateStatusTable(rows, id, status, adminNotes, t2);
    forall i | 0 <= i < |rows| ensures twice[i] == direct[i] {
      if rows[i].id == id {
        assert once[i].id == id;
      }
    }
  }
}

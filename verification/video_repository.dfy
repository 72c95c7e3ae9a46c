/**
  The `videos` table and the statements the video database manager runs on it.

  The table is the sequence of its rows in ascending `id` order together with
  the AUTOINCREMENT counter, so every statement is a pure transition and every
  query a pure function of the table. The operations below are the successful
  runs of the statements; how a statement fails or is retried is the executor's
  business (module Database), which only the deletion by id involves here.
 */
module VideoRepository {
  import opened Text
  import opened Database
  import opened PlatformDetector

  /** The download states, with the text the table stores. */
  datatype Status = Pending | Downloading | Processing | Completed | Failed | Paused

  function StatusText(s: Status): string
  {
    match s
    case Pending => "pending"
    case Downloading => "downloading"
    case Processing => "processing"
    case Completed => "completed"
    case Failed => "failed"
    case Paused => "paused"
  }

  /** One row; `created_at`/`updated_at` are not modelled. */
  datatype Video = Video(
    id: nat,
    title: string,
    views: int,
    likes: int,
    duration: string,
    status: Status,
    progress: int,
    originalLink: string,
    videoId: Option<string>,
    filePath: Option<string>)

  /** The rows in ascending id order, and the next id AUTOINCREMENT hands out. */
  datatype Table = Table(rows: seq<Video>, nextId: nat)

  predicate Ascending(rows: seq<Video>)
  {
    forall i, j :: 0 <= i < j < |rows| ==> rows[i].id < rows[j].id
  }

  /** Ids are positive, ascending, and below the counter. */
  predicate Valid(t: Table)
  {
    && Ascending(t.rows)
    && forall v :: v in t.rows ==> 1 <= v.id < t.nextId
  }

  /** The table as `CREATE TABLE` leaves it. */
  const EmptyTable := Table([], 1)

  predicate HasId(t: Table, id: int)
  {
    exists i :: 0 <= i < |t.rows| && t.rows[i].id == id
  }

  // ---- Generic row selection and update ----

  /** The rows after the first of an ascending sequence are ascending and above it. */
  lemma AscendingTail(rows: seq<Video>)
    requires |rows| > 0 && Ascending(rows)
    ensures Ascending(rows[1..])
    ensures forall v :: v in rows[1..] ==> rows[0].id < v.id
  {
    forall v | v in rows[1..] ensures rows[0].id < v.id {
      var k :| 0 <= k < |rows[1..]| && rows[1..][k] == v;
      assert rows[k + 1] == v;
    }
  }

  /** A row below every row of an ascending sequence can lead it. */
  lemma AscendingCons(x: Video, rest: seq<Video>)
    requires Ascending(rest) && forall v :: v in rest ==> x.id < v.id
    ensures Ascending([x] + rest)
  {
    var r := [x] + rest;
    forall i, j | 0 <= i < j < |r| ensures r[i].id < r[j].id {
      if i == 0 {
        assert r[j] == rest[j - 1];
        assert r[j] in rest;
      } else {
        assert r[i] == rest[i - 1] && r[j] == rest[j - 1];
      }
    }
  }

  /** The rows that satisfy `keep`, in their original order. */
  function Filter(rows: seq<Video>, keep: Video -> bool): (r: seq<Video>)
    ensures |r| <= |rows|
    ensures forall v :: v in r <==> v in rows && keep(v)
  {
    if |rows| == 0 then []
    else
      var rest := Filter(rows[1..], keep);
      assert forall v :: v in rows <==> v == rows[0] || v in rows[1..];
      if keep(rows[0]) then [rows[0]] + rest else rest
  }

  /** Filtering keeps ascending order. */
  lemma {:induction false} FilterAscending(rows: seq<Video>, keep: Video -> bool)
    requires Ascending(rows)
    ensures Ascending(Filter(rows, keep))
  {
    if |rows| > 0 {
      AscendingTail(rows);
      FilterAscending(rows[1..], keep);
      if keep(rows[0]) {
        AscendingCons(rows[0], Filter(rows[1..], keep));
      }
    }
  }

  /** Every row that satisfies `keep` is kept. */
  lemma {:induction false} FilterKeepsAll(rows: seq<Video>, keep: Video -> bool)
    requires forall v :: v in rows ==> keep(v)
    ensures Filter(rows, keep) == rows
  {
    if |rows| > 0 {
      assert rows[0] in rows;
      assert forall v :: v in rows[1..] ==> v in rows;
      FilterKeepsAll(rows[1..], keep);
      assert rows == [rows[0]] + rows[1..];
    }
  }

  /** No row is kept when none satisfies `keep`. */
  lemma {:induction false} FilterKeepsNone(rows: seq<Video>, keep: Video -> bool)
    requires forall v :: v in rows ==> !keep(v)
    ensures Filter(rows, keep) == []
  {
    if |rows| > 0 {
      assert rows[0] in rows;
      assert forall v :: v in rows[1..] ==> v in rows;
      FilterKeepsNone(rows[1..], keep);
    }
  }

  /** Apply `f` to the row with this id; other rows are unchanged. */
  function UpdateWhere(t: Table, id: int, f: Video -> Video): (r: Table)
    requires forall v :: f(v).id == v.id
    ensures r.nextId == t.nextId && |r.rows| == |t.rows|
    ensures forall i :: 0 <= i < |t.rows| ==>
      r.rows[i] == (if t.rows[i].id == id then f(t.rows[i]) else t.rows[i])
    ensures Valid(t) ==> Valid(r)
  {
    Table(seq(|t.rows|, i requires 0 <= i < |t.rows| => if t.rows[i].id == id then f(t.rows[i]) else t.rows[i]), t.nextId)
  }

  // ---- The statements ----

  /**
    `insert_video`: appends one row with a fresh id (the one AUTOINCREMENT hands
    out) and progress 0, and returns that id. `video_id` is not unique.
   */
  function Insert(t: Table, title: string, views: int, likes: int, duration: string, originalLink: string,
                  videoId: Option<string>, filePath: Option<string>, status: Status): (r: (Table, nat))
    requires Valid(t)
    ensures Valid(r.0)
    ensures !HasId(t, r.1) && forall v :: v in t.rows ==> v.id < r.1
    ensures r.0.rows == t.rows + [Video(r.1, title, views, likes, duration, status, 0, originalLink, videoId, filePath)]
  {
    var id := if t.nextId == 0 then 1 else t.nextId;
    (Table(t.rows + [Video(id, title, views, likes, duration, status, 0, originalLink, videoId, filePath)], id + 1), id)
  }

  /** `insert_video` with the defaults: no video id, no file path, status pending. */
  function InsertWithDefaults(t: Table, title: string, views: int, likes: int, duration: string, originalLink: string): (r: (Table, nat))
    requires Valid(t)
    ensures Valid(r.0) && |r.0.rows| == |t.rows| + 1
    ensures r.0.rows[|t.rows|] == Video(r.1, title, views, likes, duration, Pending, 0, originalLink, None, None)
  {
    Insert(t, title, views, likes, duration, originalLink, None, None, Pending)
  }

  /** `get_all_videos`: every row, by ascending id. */
  function GetAll(t: Table): (r: seq<Video>)
    requires Valid(t)
    ensures Ascending(r) && |r| == |t.rows|
    ensures forall v :: v in r <==> v in t.rows
  {
    t.rows
  }

  /** The row with this id among `rows`, if any. */
  function Lookup(rows: seq<Video>, id: int): (r: Option<Video>)
    ensures r.Some? ==> r.value in rows && r.value.id == id
    ensures r.None? <==> forall v :: v in rows ==> v.id != id
  {
    if |rows| == 0 then None
    else if rows[0].id == id then Some(rows[0])
    else
      assert forall v :: v in rows ==> v == rows[0] || v in rows[1..];
      Lookup(rows[1..], id)
  }

  /** `get_video_by_id`. */
  function GetById(t: Table, id: int): (r: Option<Video>)
    ensures r.Some? <==> HasId(t, id)
    ensures r.Some? ==> r.value in t.rows && r.value.id == id
  {
    Lookup(t.rows, id)
  }

  /** SQLite's `LIKE '%keyword%'`: a substring test that ignores ASCII case. */
  predicate Like(field: string, keyword: string)
  {
    Contains(Lower(field), Lower(keyword))
  }

  predicate MatchesKeyword(v: Video, keyword: string)
  {
    || Like(v.title, keyword)
    || Like(v.originalLink, keyword)
    || (v.videoId.Some? && Like(v.videoId.value, keyword))
  }

  /** `search_videos`: the rows whose title, link or video id contains the keyword. */
  function Search(t: Table, keyword: string): (r: seq<Video>)
    requires Valid(t)
    ensures Ascending(r)
    ensures forall v :: v in r <==> v in t.rows && MatchesKeyword(v, keyword)
  {
    var keep := (v: Video) => MatchesKeyword(v, keyword);
    FilterAscending(t.rows, keep);
    Filter(t.rows, keep)
  }

  /** `update_video_status`: sets the status, and the progress when one is given. */
  function UpdateStatus(t: Table, id: int, status: Status, progress: Option<int>): (r: Table)
    ensures r.nextId == t.nextId && |r.rows| == |t.rows|
    ensures Valid(t) ==> Valid(r)
    ensures forall i :: 0 <= i < |t.rows| && t.rows[i].id != id ==> r.rows[i] == t.rows[i]
    ensures forall i :: 0 <= i < |t.rows| && t.rows[i].id == id ==>
      && r.rows[i].status == status
      && r.rows[i].progress == (if progress.Some? then progress.value else t.rows[i].progress)
      && r.rows[i] == t.rows[i].(status := r.rows[i].status, progress := r.rows[i].progress)
  {
    UpdateWhere(t, id, (v: Video) => v.(status := status, progress := progress.GetOr(v.progress)))
  }

  /** `update_video_file_path`: sets the file path of the row with this id. */
  function UpdateFilePath(t: Table, id: int, filePath: Option<string>): (r: Table)
    ensures r.nextId == t.nextId && |r.rows| == |t.rows|
    ensures Valid(t) ==> Valid(r)
    ensures forall i :: 0 <= i < |t.rows| && t.rows[i].id != id ==> r.rows[i] == t.rows[i]
    ensures forall i :: 0 <= i < |t.rows| && t.rows[i].id == id ==> r.rows[i] == t.rows[i].(filePath := filePath)
  {
    UpdateWhere(t, id, (v: Video) => v.(filePath := filePath))
  }

  /** The rows a deletion by id keeps. */
  function Other(id: int): Video -> bool
  {
    (v: Video) => v.id != id
  }

  /** `DELETE FROM videos WHERE id = ?`: removes the row with this id, if any. */
  function DeleteRow(t: Table, id: int): (r: Table)
    requires Valid(t)
    ensures r.nextId == t.nextId
    ensures Valid(r)
    ensures forall v :: v in r.rows <==> v in t.rows && v.id != id
    ensures !HasId(r, id)
  {
    FilterAscending(t.rows, Other(id));
    Table(Filter(t.rows, Other(id)), t.nextId)
  }

  /** `delete_all_videos`: empties the table; the counter keeps its value. */
  function DeleteAll(t: Table): (r: Table)
    ensures r.rows == [] && r.nextId == t.nextId
    ensures Valid(r)
  {
    Table([], t.nextId)
  }

  /** The rows a status selection keeps. */
  function HasStatusText(text: string): Video -> bool
  {
    (v: Video) => StatusText(v.status) == text
  }

  /** `get_videos_by_status`: the rows whose stored status text is `text`, by ascending id. */
  function ByStatus(t: Table, text: string): (r: seq<Video>)
    requires Valid(t)
    ensures Ascending(r)
    ensures forall v :: v in r <==> v in t.rows && StatusText(v.status) == text
  {
    FilterAscending(t.rows, HasStatusText(text));
    Filter(t.rows, HasStatusText(text))
  }

  /** `get_videos_count`: the number of rows. */
  function Count(t: Table): (n: nat)
    requires Valid(t)
    ensures n == |GetAll(t)|
    ensures n == 0 <==> forall id :: !HasId(t, id)
  {
    if |t.rows| > 0 then assert HasId(t, t.rows[0].id); |t.rows| else 0
  }

  /** `detector.platforms.get(key)`: the entry with this key. */
  function EntryOf(ps: Platforms, key: string): (r: Option<PlatformEntry>)
    ensures r.Some? ==> r.value in ps && r.value.key == key
    ensures r.None? <==> forall e :: e in ps ==> e.key != key
  {
    if |ps| == 0 then None
    else if ps[0].key == key then Some(ps[0])
    else
      assert forall e :: e in ps ==> e == ps[0] || e in ps[1..];
      EntryOf(ps[1..], key)
  }

  predicate LinkMentions(v: Video, keywords: seq<string>)
  {
    exists kw :: kw in keywords && Like(v.originalLink, kw)
  }

  /**
    `get_videos_by_platform`: nothing for an unknown key or a platform without
    keywords; otherwise the rows whose link contains one of its keywords.
   */
  function ByPlatform(t: Table, ps: Platforms, key: string): (r: seq<Video>)
    requires Valid(t)
    ensures Ascending(r)
    ensures EntryOf(ps, key).None? ==> r == []
    ensures EntryOf(ps, key).Some? ==>
      forall v :: v in r <==> v in t.rows && LinkMentions(v, EntryOf(ps, key).value.keywords)
  {
    match EntryOf(ps, key)
    case None => []
    case Some(e) =>
      if |e.keywords| == 0 then []
      else
        var keep := (v: Video) => LinkMentions(v, e.keywords);
        FilterAscending(t.rows, keep);
        Filter(t.rows, keep)
  }

  // ---- Deleting one video through the executor ----

  /** The parameters handed to `execute`: a tuple, or a bare value. */
  datatype Params = Tuple(values: seq<Field>) | Bare(value: Field)

  /** Python truthiness, for `params = params or ()`. */
  predicate Falsy(p: Params)
  {
    match p
    case Tuple(vs) => |vs| == 0
    case Bare(f) => f == IntField(0) || f == TextField("") || f == NullField
  }

  const UnsupportedParamsText := "parameters are of unsupported type"
  const BindingCountText := "Incorrect number of bindings supplied"

  /**
    How many values sqlite3 binds from the parameters after `params or ()`, or
    None when they are not a sequence. A `str` is a sequence of its characters.
   */
  function Supplied(p: Params): Option<nat>
  {
    if Falsy(p) then Some(0)
    else match p
      case Tuple(vs) => Some(|vs|)
      case Bare(TextField(s)) => Some(|s|)
      case Bare(_) => None
  }

  /** Why the parameters cannot be bound to a statement with this many placeholders, if they cannot. */
  function BindError(placeholders: nat, p: Params): (r: Option<string>)
    ensures r.None? <==> Supplied(p) == Some(placeholders)
    ensures r == Some(UnsupportedParamsText) <==> Supplied(p).None?
    ensures r == Some(BindingCountText) <==> Supplied(p).Some? && Supplied(p) != Some(placeholders)
  {
    var q := if Falsy(p) then Tuple([]) else p;
    match q
    case Tuple(vs) => if |vs| == placeholders then None else Some(BindingCountText)
    case Bare(TextField(s)) => if |s| == placeholders then None else Some(BindingCountText)
    case Bare(_) => Some(UnsupportedParamsText)
  }

  /**
    The attempts the executor sees: when binding fails, every attempt raises the
    binding error, which is not an operational error.
   */
  function WithParams(placeholders: nat, p: Params, env: seq<Attempt>): (a: seq<Attempt>)
    ensures |a| == |env|
    ensures BindError(placeholders, p).None? ==> a == env
    ensures BindError(placeholders, p).Some? ==>
      forall i :: 0 <= i < |a| ==> a[i] == OtherError(BindError(placeholders, p).value)
  {
    match BindError(placeholders, p)
    case None => env
    case Some(m) => seq(|env|, i => OtherError(m))
  }

  /** `delete_video` as written: the record id is passed bare, not in a tuple. */
  function DeleteVideoAsWritten(t: Table, recordId: int, env: seq<Attempt>): Result<Table, DbError>
    requires Valid(t) && MaxRetries <= |env|
  {
    var e := ExecuteWrite(WithParams(1, Bare(IntField(recordId)), env));
    if e.outcome.Returned? then Success(DeleteRow(t, recordId)) else Failure(e.outcome.error)
  }

  /** `delete_video` with the parameters in a one-element tuple. */
  function DeleteVideo(t: Table, recordId: int, env: seq<Attempt>): Result<Table, DbError>
    requires Valid(t) && MaxRetries <= |env|
  {
    var e := ExecuteWrite(WithParams(1, Tuple([IntField(recordId)]), env));
    if e.outcome.Returned? then Success(DeleteRow(t, recordId)) else Failure(e.outcome.error)
  }

  /**
    As written, deleting a video always raises on the first attempt, whatever the
    database would have answered, and nothing is committed.
   */
  lemma DeleteVideoAsWrittenRaises(t: Table, recordId: int, env: seq<Attempt>)
    requires Valid(t) && MaxRetries <= |env|
    ensures DeleteVideoAsWritten(t, recordId, env).Failure?
    ensures DeleteVideoAsWritten(t, recordId, env).error.Propagated?
    ensures ExecuteWrite(WithParams(1, Bare(IntField(recordId)), env)).attempts == 1
    ensures !ExecuteWrite(WithParams(1, Bare(IntField(recordId)), env)).committed
  {
    var a := WithParams(1, Bare(IntField(recordId)), env);
    assert a[0].OtherError?;
  }

  /**
    With the id in a tuple, deleting commits exactly when the executor succeeds,
    and then removes that row and only that row.
   */
  lemma DeleteVideoRemovesRow(t: Table, recordId: int, env: seq<Attempt>)
    requires Valid(t) && MaxRetries <= |env|
    ensures DeleteVideo(t, recordId, env).Success? <==> ExecuteWrite(env).outcome.Returned?
    ensures DeleteVideo(t, recordId, env).Success? ==>
      var r := DeleteVideo(t, recordId, env).value;
      Valid(r) && !HasId(r, recordId) && forall v :: v in t.rows && v.id != recordId ==> v in r.rows
  {
  }

  // ---- Properties of the statements ----

  /** What is inserted is found again under the returned id. */
  lemma InsertThenGet(t: Table, title: string, views: int, likes: int, duration: string, originalLink: string,
                      videoId: Option<string>, filePath: Option<string>, status: Status)
    requires Valid(t)
    ensures var (t1, id) := Insert(t, title, views, likes, duration, originalLink, videoId, filePath, status);
      GetById(t1, id) == Some(Video(id, title, views, likes, duration, status, 0, originalLink, videoId, filePath))
  {
    var (t1, id) := Insert(t, title, views, likes, duration, originalLink, videoId, filePath, status);
    var v := Video(id, title, views, likes, duration, status, 0, originalLink, videoId, filePath);
    assert t1.rows[|t.rows|] == v;
    LookupAt(t1.rows, id);
  }

  /** Inserting the same video twice gives two rows, with different ids and the same video id. */
  lemma InsertTwiceDuplicates(t: Table, title: string, views: int, likes: int, duration: string, originalLink: string,
                              videoId: Option<string>, filePath: Option<string>, status: Status)
    requires Valid(t)
    ensures var (t1, id1) := Insert(t, title, views, likes, duration, originalLink, videoId, filePath, status);
      var (t2, id2) := Insert(t1, title, views, likes, duration, originalLink, videoId, filePath, status);
      && |t2.rows| == |t.rows| + 2 && id1 < id2
      && t2.rows[|t.rows|].videoId == t2.rows[|t.rows| + 1].videoId
  {
  }

  /** The empty keyword (`LIKE '%%'`) finds every row. */
  lemma SearchEmptyKeyword(t: Table)
    requires Valid(t)
    ensures Search(t, "") == t.rows
  {
    var keep := (v: Video) => MatchesKeyword(v, "");
    forall v | v in t.rows ensures keep(v) {
      ContainsAt(Lower(v.title), Lower(""), 0);
    }
    FilterKeepsAll(t.rows, keep);
  }

  /** A status update is seen under that id, and under no other. */
  lemma UpdateStatusThenGet(t: Table, id: int, status: Status, progress: Option<int>, other: int)
    requires Valid(t) && HasId(t, id) && other != id
    ensures var r := UpdateStatus(t, id, status, progress);
      && GetById(r, id).Some? && GetById(r, id).value.status == status
      && GetById(r, other) == GetById(t, other)
  {
    var r := UpdateStatus(t, id, status, progress);
    LookupAt(r.rows, id);
    if HasId(t, other) {
      var j :| 0 <= j < |t.rows| && t.rows[j].id == other;
      LookupAt(t.rows, other);
      LookupAt(r.rows, other);
      assert r.rows[j] == t.rows[j];
    } else {
      assert forall v :: v in r.rows ==> v.id != other by {
        forall v | v in r.rows ensures v.id != other {
          var j :| 0 <= j < |r.rows| && r.rows[j] == v;
          assert r.rows[j].id == t.rows[j].id;
        }
      }
    }
  }

  /** In ascending rows, the lookup finds the row at its index. */
  lemma LookupAt(rows: seq<Video>, id: int)
    requires Ascending(rows)
    ensures forall j :: 0 <= j < |rows| && rows[j].id == id ==> Lookup(rows, id) == Some(rows[j])
  {
    forall j | 0 <= j < |rows| && rows[j].id == id
      ensures Lookup(rows, id) == Some(rows[j])
    {
      var v := Lookup(rows, id).value;
      var k :| 0 <= k < |rows| && rows[k] == v;
    }
  }

  /** Updating a missing id changes nothing. */
  lemma UpdateMissingIdNoop(t: Table, id: int, status: Status, progress: Option<int>, filePath: Option<string>)
    requires !HasId(t, id)
    ensures UpdateStatus(t, id, status, progress) == t
    ensures UpdateFilePath(t, id, filePath) == t
  {
  }

  /** A deletion removes one row when the id is present, and none otherwise. */
  lemma {:induction false} DeleteCount(rows: seq<Video>, id: int)
    requires Ascending(rows)
    ensures |Filter(rows, Other(id))| == |rows| - (if exists v :: v in rows && v.id == id then 1 else 0)
  {
    if |rows| > 0 {
      AscendingTail(rows);
      DeleteCount(rows[1..], id);
      assert forall v :: v in rows <==> v == rows[0] || v in rows[1..];
    }
  }

  lemma CountAfterDelete(t: Table, id: int)
    requires Valid(t)
    ensures Count(DeleteRow(t, id)) == Count(t) - (if HasId(t, id) then 1 else 0)
  {
    DeleteCount(t.rows, id);
    if HasId(t, id) {
      var i :| 0 <= i < |t.rows| && t.rows[i].id == id;
      assert t.rows[i] in t.rows;
    }
  }

  lemma CountAfterInsert(t: Table, title: string, views: int, likes: int, duration: string, originalLink: string,
                         videoId: Option<string>, filePath: Option<string>, status: Status)
    requires Valid(t)
    ensures Count(Insert(t, title, views, likes, duration, originalLink, videoId, filePath, status).0) == Count(t) + 1
  {
  }

  /** After emptying the table, new ids are still above every id it ever held. */
  lemma IdsNotReused(t: Table, title: string, views: int, likes: int, duration: string, originalLink: string)
    requires Valid(t)
    ensures Count(DeleteAll(t)) == 0
    ensures var (_, id) := InsertWithDefaults(DeleteAll(t), title, views, likes, duration, originalLink);
      forall v :: v in t.rows ==> v.id < id
  {
  }

  /**
    With lower-case keywords, a video whose link the keyword detector assigns to a
    platform is listed under that platform.
   */
  lemma DetectedVideoListed(t: Table, ps: Platforms, v: Video)
    requires Valid(t) && UniqueKeys(ps) && v in t.rows
    requires forall e, kw :: e in ps && kw in e.keywords ==> Lower(kw) == kw
    requires DetectPlatform(ps, v.originalLink).Some?
    ensures v in ByPlatform(t, ps, DetectPlatform(ps, v.originalLink).value.key)
  {
    var d := DetectPlatform(ps, v.originalLink).value;
    var i :| 0 <= i < |ps| && Mentions(ps[i], Lower(v.originalLink)) && d == DetectedOf(ps[i]);
    var kw :| kw in ps[i].keywords && Contains(Lower(v.originalLink), kw);
    assert Like(v.originalLink, kw);
    var e := EntryOf(ps, d.key).value;
    var j :| 0 <= j < |ps| && ps[j] == e;
    assert j == i;
  }

  /** A text that is no status's text selects nothing. */
  lemma ByStatusUnknownText(t: Table, text: string)
    requires Valid(t) && forall s :: StatusText(s) != text
    ensures ByStatus(t, text) == []
  {
    FilterKeepsNone(t.rows, HasStatusText(text));
  }

  /** A status update is what status selection sees next. */
  lemma UpdateStatusThenByStatus(t: Table, id: int, status: Status, progress: Option<int>)
    requires Valid(t) && HasId(t, id)
    ensures exists v :: v in ByStatus(UpdateStatus(t, id, status, progress), StatusText(status)) && v.id == id
  {
    var r := UpdateStatus(t, id, status, progress);
    var i :| 0 <= i < |t.rows| && t.rows[i].id == id;
    assert r.rows[i] in r.rows;
  }

  /** The freshly created table is empty, and its first insert gets id 1. */
  lemma FirstInsertGetsOne(title: string, views: int, likes: int, duration: string, originalLink: string)
    ensures Valid(EmptyTable) && Count(EmptyTable) == 0
    ensures InsertWithDefaults(EmptyTable, title, views, likes, duration, originalLink).1 == 1
  {
  }
}

/** The JSON directory store against the in-memory one: for which ids they cannot be told apart, and
    what a crash inside `save` leaves behind. */
module FileStore {
  import opened Common
  import opened Redaction
  import opened SecretScanner
  import E = ExecutionSpec

  /** `<stem>.json`, or the `<stem>.json.tmp` it is written to first. */
  datatype FileName = Record(stem: string) | Temp(stem: string)

  /** What a file holds: a document, or an interrupted write that does not parse. */
  datatype Content = Document(payload: Fields) | Torn

  type Directory = map<FileName, Content>

  function Safe(c: char): char { if In(Alnum, c) || c == '-' || c == '_' then c else '_' }

  function Sanitized(id: string): string
  {
    if id == "" then "" else [Safe(id[0])] + Sanitized(id[1..])
  }

  /** `_path` */
  function StemOf(id: string): string { if id == "" then "unknown" else Sanitized(id) }

  predicate Plain(id: string) { id != "" && forall c | c in id :: Safe(c) == c }

  lemma {:induction false} SafeIsKept(s: string)
    requires forall c | c in s :: Safe(c) == c
    ensures Sanitized(s) == s
  {
    hide Safe;
    if s != "" {
      assert s[0] in s && forall c | c in s[1..] :: c in s;
      SafeIsKept(s[1..]);
    }
  }

  lemma PlainIsKept(id: string)
    requires Plain(id)
    ensures StemOf(id) == id && id != ""
  {
    hide Safe, Sanitized;
    SafeIsKept(id);
  }

  // What the operations do to a directory

  function Without(d: Directory, f: FileName): Directory { map k | k in d && k != f :: d[k] }

  function Saved(d: Directory, id: string, p: Fields): Directory {
    Without(d, Temp(StemOf(id)))[Record(StemOf(id)) := Document(p)]
  }

  function Loaded(d: Directory, id: string): Option<Fields> {
    var f := Record(StemOf(id));
    if f in d && d[f].Document? then Some(d[f].payload) else None
  }

  function Deleted(d: Directory, id: string): Directory { Without(d, Record(StemOf(id))) }

  function Swept(d: Directory): Directory { map f | f in d && f.Record? :: d[f] }

  /** The id a record file is listed under; none when it does not parse or has a falsy id. */
  function ListedAs(c: Content): Option<string> {
    if c.Document? && E.Truthy(E.Get(c.payload, "execution_id")) && E.Get(c.payload, "execution_id").Str?
    then Some(E.Get(c.payload, "execution_id").s) else None
  }

  ghost function Listed(d: Directory): set<string> {
    set f | f in d && f.Record? && ListedAs(d[f]).Some? :: ListedAs(d[f]).value
  }

  /** `save` interrupted: before the replace, with whatever is in the temporary file; or after it. */
  function Interrupted(d: Directory, id: string, p: Fields, replaced: bool, partial: Option<Content>): Directory {
    if replaced then Saved(d, id, p)
    else if partial.Some? then d[Temp(StemOf(id)) := partial.value]
    else d
  }

  class JsonFileExecutionStore {
    var files: Directory

    constructor ()
      ensures files == map[]
    {
      files := map[];
    }

    method WriteTemp(id: string, c: Content)
      modifies this
      ensures files == old(files)[Temp(StemOf(id)) := c]
    {
      files := files[Temp(StemOf(id)) := c];
    }

    /** `os.replace` */
    method Replace(id: string)
      requires Temp(StemOf(id)) in files
      modifies this
      ensures files == Without(old(files), Temp(StemOf(id)))[Record(StemOf(id)) := old(files)[Temp(StemOf(id))]]
    {
      var stem := StemOf(id);
      var c := files[Temp(stem)];
      files := (map k | k in files && k != Temp(stem) :: files[k])[Record(stem) := c];
    }

    method Save(id: string, payload: Fields)
      modifies this
      ensures files == Saved(old(files), id, payload)
    {
      WriteTemp(id, Document(payload));
      Replace(id);
    }

    function Load(id: string): Option<Fields>
      reads this
    {
      var f := Record(StemOf(id));
      if f !in files then None else
        match files[f]
        case Document(p) => Some(p)
        case Torn => None
    }

    method Delete(id: string)
      modifies this
      ensures files == Deleted(old(files), id)
    {
      var f := Record(StemOf(id));
      if f in files {
        files := map k | k in files && k != f :: files[k];
      } else {
        assert files == Deleted(files, id);
      }
    }

    /** Drops interrupted writes, then lists the ids of the records that parse, in the directory's
        order. */
    method ListIds() returns (ids: seq<string>, ghost listing: seq<FileName>)
      modifies this
      ensures files == Swept(old(files))
      ensures |ids| == |listing| && (forall i, j | 0 <= i < j < |ids| :: listing[i] != listing[j])
      ensures forall i | 0 <= i < |ids| ::
        listing[i] in files && ListedAs(files[listing[i]]) == Some(ids[i])
      ensures forall f | f in files && ListedAs(files[f]).Some? :: f in listing
      ensures forall x :: x in ids <==> x in Listed(old(files))
    {
      hide ListedAs;
      files := map f | f in files && f.Record? :: files[f];
      ids, listing := [], [];
      var rest := files.Keys;
      while rest != {}
        invariant rest <= files.Keys
        invariant |ids| == |listing| && (forall i, j | 0 <= i < j < |ids| :: listing[i] != listing[j])
        invariant forall i | 0 <= i < |ids| ::
          listing[i] in files && listing[i] !in rest && ListedAs(files[listing[i]]) == Some(ids[i])
        invariant forall f | f in files && f !in rest && ListedAs(files[f]).Some? :: f in listing
        decreases |rest|
      {
        var f :| f in rest;
        rest := rest - {f};
        var id := ListedAs(files[f]);
        if id.Some? {
          ids := ids + [id.value];
          listing := listing + [f];
        }
      }
      ListingIsListed(old(files), files, ids, listing);
    }
  }

  lemma ListingIsListed(d: Directory, files: Directory, ids: seq<string>, listing: seq<FileName>)
    requires files == Swept(d) && |ids| == |listing|
    requires forall i | 0 <= i < |ids| :: listing[i] in files && ListedAs(files[listing[i]]) == Some(ids[i])
    requires forall f | f in files && ListedAs(files[f]).Some? :: f in listing
    ensures forall x :: x in ids <==> x in Listed(d)
  {
    hide ListedAs;
    forall x | x in ids ensures x in Listed(d) {
      var i :| 0 <= i < |ids| && ids[i] == x;
      assert listing[i] in d && ListedAs(d[listing[i]]) == Some(x);
    }
    forall x | x in Listed(d) ensures x in ids {
      var f :| f in d && f.Record? && ListedAs(d[f]) == Some(x);
      assert f in files && files[f] == d[f] && f in listing;
      var i :| 0 <= i < |listing| && listing[i] == f;
      assert ids[i] == x;
    }
  }

  // Runs

  datatype Op =
    | OpSave(id: string, payload: Fields)
    | OpLoad(id: string)
    | OpDelete(id: string)
    | OpList
    | OpCrashInSave(id: string, payload: Fields, replaced: bool, partial: Option<Content>)

  datatype Reply = Nothing | Found(payload: Option<Fields>) | Ids(ids: set<string>)

  function FileStep(d: Directory, op: Op): Directory {
    match op
    case OpSave(id, p) => Saved(d, id, p)
    case OpLoad(_) => d
    case OpDelete(id) => Deleted(d, id)
    case OpList => Swept(d)
    case OpCrashInSave(id, p, replaced, partial) => Interrupted(d, id, p, replaced, partial)
  }

  ghost function FileReply(d: Directory, op: Op): Reply {
    match op
    case OpLoad(id) => Found(Loaded(d, id))
    case OpList => Ids(Listed(d))
    case _ => Nothing
  }

  /** The in-memory store; a save that crashed has happened or it has not. */
  function MapStep(m: E.Saved, op: Op): E.Saved {
    match op
    case OpSave(id, p) => m[id := p]
    case OpLoad(_) => m
    case OpDelete(id) => m - {id}
    case OpList => m
    case OpCrashInSave(id, p, replaced, _) => if replaced then m[id := p] else m
  }

  function MapReply(m: E.Saved, op: Op): Reply {
    match op
    case OpLoad(id) => Found(if id in m then Some(m[id]) else None)
    case OpList => Ids(m.Keys)
    case _ => Nothing
  }

  ghost function FileReplies(d: Directory, ops: seq<Op>): seq<Reply>
    decreases |ops|
  {
    if ops == [] then [] else [FileReply(d, ops[0])] + FileReplies(FileStep(d, ops[0]), ops[1..])
  }

  ghost function MapReplies(m: E.Saved, ops: seq<Op>): seq<Reply>
    decreases |ops|
  {
    if ops == [] then [] else [MapReply(m, ops[0])] + MapReplies(MapStep(m, ops[0]), ops[1..])
  }

  /** The payload carries its own id, which is not blank, as every record's snapshot does. */
  predicate Own(id: string, p: Fields) { id != "" && E.Get(p, "execution_id") == Str(id) }

  ghost predicate Uses(op: Op, ids: set<string>) {
    match op
    case OpSave(id, p) => id in ids && Own(id, p)
    case OpLoad(id) => id in ids
    case OpDelete(id) => id in ids
    case OpList => true
    case OpCrashInSave(id, p, _, _) => id in ids && Own(id, p)
  }

  ghost predicate UsesOnly(ops: seq<Op>, ids: set<string>) { forall op | op in ops :: Uses(op, ids) }

  /** No two of the ids share a file. */
  ghost predicate Apart(ids: set<string>) { forall a, b | a in ids && b in ids && StemOf(a) == StemOf(b) :: a == b }

  /** The record files of the directory are the entries of the map. */
  ghost predicate Represents(d: Directory, m: E.Saved, ids: set<string>) {
    && m.Keys <= ids && (forall id | id in m :: Own(id, m[id]))
    && (forall id | id in ids :: Record(StemOf(id)) in d <==> id in m)
    && (forall id | id in m :: d[Record(StemOf(id))] == Document(m[id]))
    && (forall f | f in d && f.Record? :: exists id :: id in m && f == Record(StemOf(id)))
  }

  lemma OwnIsListed(id: string, p: Fields)
    requires Own(id, p)
    ensures ListedAs(Document(p)) == Some(id)
  {}

  lemma SaveRepresents(d: Directory, m: E.Saved, ids: set<string>, id: string, p: Fields)
    requires Represents(d, m, ids) && Apart(ids) && id in ids && Own(id, p)
    ensures Represents(Saved(d, id, p), m[id := p], ids)
  {
    hide StemOf, Own;
    var t := Saved(d, id, p);
    forall f | f in t && f.Record? ensures exists x :: x in m[id := p] && f == Record(StemOf(x)) {
      if f == Record(StemOf(id)) {
        assert id in m[id := p];
      } else {
        var x :| x in m && f == Record(StemOf(x));
        assert x in m[id := p];
      }
    }
  }

  lemma DeleteRepresents(d: Directory, m: E.Saved, ids: set<string>, id: string)
    requires Represents(d, m, ids) && Apart(ids) && id in ids
    ensures Represents(Deleted(d, id), m - {id}, ids)
  {
    hide StemOf, Own;
    var t := Deleted(d, id);
    forall f | f in t && f.Record? ensures exists x :: x in m - {id} && f == Record(StemOf(x)) {
      var x :| x in m && f == Record(StemOf(x));
      assert x in m - {id};
    }
  }

  lemma TempsDoNotCount(d: Directory, t: Directory, m: E.Saved, ids: set<string>)
    requires Represents(d, m, ids) && forall f: FileName | f.Record? :: (f in t <==> f in d) && (f in d ==> t[f] == d[f])
    ensures Represents(t, m, ids)
  {
    hide StemOf, Own;
  }

  lemma StepRepresents(d: Directory, m: E.Saved, ids: set<string>, op: Op)
    requires Represents(d, m, ids) && Apart(ids) && Uses(op, ids)
    ensures Represents(FileStep(d, op), MapStep(m, op), ids)
  {
    hide Represents, Apart, StemOf, Saved, Deleted;
    match op
    case OpSave(id, p) => SaveRepresents(d, m, ids, id, p);
    case OpLoad(_) =>
    case OpDelete(id) => DeleteRepresents(d, m, ids, id);
    case OpList => TempsDoNotCount(d, Swept(d), m, ids);
    case OpCrashInSave(id, p, replaced, partial) =>
      if replaced { SaveRepresents(d, m, ids, id, p); } else { TempsDoNotCount(d, FileStep(d, op), m, ids); }
  }

  lemma ReplyRepresents(d: Directory, m: E.Saved, ids: set<string>, op: Op)
    requires Represents(d, m, ids) && Apart(ids) && Uses(op, ids)
    ensures FileReply(d, op) == MapReply(m, op)
  {
    hide StemOf, Listed, Own;
    if op.OpList? { ListedIsKeys(d, m, ids); }
  }

  lemma ListedIsKeys(d: Directory, m: E.Saved, ids: set<string>)
    requires Represents(d, m, ids)
    ensures Listed(d) == m.Keys
  {
    hide StemOf, ListedAs, Own;
    forall id | id in m ensures id in Listed(d) {
      OwnIsListed(id, m[id]);
      assert Record(StemOf(id)) in d;
    }
    forall x | x in Listed(d) ensures x in m {
      var f :| f in d && f.Record? && ListedAs(d[f]) == Some(x);
      var id :| id in m && f == Record(StemOf(id));
      OwnIsListed(id, m[id]);
    }
  }

  /** A crash inside `save` leaves the old payload or the new one, leaves every other record, and lists
      nothing else. */
  lemma CrashInSave(d: Directory, m: E.Saved, ids: set<string>, id: string, p: Fields, replaced: bool, partial: Option<Content>)
    requires Represents(d, m, ids) && Apart(ids) && id in ids && Own(id, p)
    ensures var t := Interrupted(d, id, p, replaced, partial);
      && (Loaded(t, id) == Loaded(d, id) || Loaded(t, id) == Some(p))
      && (Listed(t) == Listed(d) || Listed(t) == Listed(d) + {id})
      && forall x | x in ids && x != id :: Loaded(t, x) == Loaded(d, x)
  {
    hide Represents, Interrupted, Loaded, Listed, StemOf;
    var op := OpCrashInSave(id, p, replaced, partial);
    StepRepresents(d, m, ids, op);
    ReplyRepresents(d, m, ids, OpLoad(id));
    ReplyRepresents(d, m, ids, OpList);
    ReplyRepresents(FileStep(d, op), MapStep(m, op), ids, OpLoad(id));
    ReplyRepresents(FileStep(d, op), MapStep(m, op), ids, OpList);
    assert m[id := p].Keys == m.Keys + {id};
    forall x | x in ids && x != id ensures Loaded(Interrupted(d, id, p, replaced, partial), x) == Loaded(d, x) {
      ReplyRepresents(d, m, ids, OpLoad(x));
      ReplyRepresents(FileStep(d, op), MapStep(m, op), ids, OpLoad(x));
    }
  }

  lemma {:induction false} RepliesAgree(d: Directory, m: E.Saved, ids: set<string>, ops: seq<Op>)
    requires Represents(d, m, ids) && Apart(ids) && UsesOnly(ops, ids)
    ensures FileReplies(d, ops) == MapReplies(m, ops)
    decreases |ops|
  {
    hide Represents, Apart, FileStep, MapStep, FileReply, MapReply, Uses;
    if ops != [] {
      assert ops[0] in ops;
      ReplyRepresents(d, m, ids, ops[0]);
      StepRepresents(d, m, ids, ops[0]);
      RepliesAgree(FileStep(d, ops[0]), MapStep(m, ops[0]), ids, ops[1..]);
    }
  }

  ghost predicate SameStores(ids: set<string>) {
    forall ops | UsesOnly(ops, ids) :: FileReplies(map[], ops) == MapReplies(map[], ops)
  }

  lemma SharedFileShows(ids: set<string>, a: string, b: string, p: Fields)
    requires a in ids && b in ids && a != b && StemOf(a) == StemOf(b) && Own(a, p)
    ensures var ops := [OpSave(a, p), OpLoad(b)];
      UsesOnly(ops, ids) && FileReplies(map[], ops) != MapReplies(map[], ops)
  {
    hide StemOf, Own;
    var ops := [OpSave(a, p), OpLoad(b)];
    var d := FileStep(map[], ops[0]);
    assert ops[1..] == [OpLoad(b)] && [OpLoad(b)][1..] == [];
    assert FileReplies(d, [OpLoad(b)])[0] == Found(Some(p));
    assert MapReplies(MapStep(map[], ops[0]), [OpLoad(b)])[0] == Found(None);
    assert FileReplies(map[], ops)[1] == Found(Some(p));
    assert MapReplies(map[], ops)[1] == Found(None);
  }

  /** The directory answers every sequence of calls as the map does, crashes included, exactly when
      no two of the ids share a file. */
  lemma FilesRefineMapIff(ids: set<string>)
    ensures SameStores(ids) <==> Apart(ids)
  {
    hide FileReplies, MapReplies, StemOf, UsesOnly;
    if Apart(ids) {
      forall ops | UsesOnly(ops, ids) ensures FileReplies(map[], ops) == MapReplies(map[], ops) {
        RepliesAgree(map[], map[], ids, ops);
      }
    } else {
      var a, b :| a in ids && b in ids && StemOf(a) == StemOf(b) && a != b;
      var x, y := if a == "" then b else a, if a == "" then a else b;
      SharedFileShows(ids, x, y, map["execution_id" := Str(x)]);
    }
  }

  /** Ids of alphanumerics, `-` and `_` never share a file. */
  lemma PlainIdsAreApart(ids: set<string>)
    requires forall id | id in ids :: Plain(id)
    ensures Apart(ids) && SameStores(ids)
  {
    hide StemOf, Plain, SameStores;
    forall id | id in ids ensures StemOf(id) == id && id != "" { PlainIsKept(id); }
    FilesRefineMapIff(ids);
  }

  // The directory, file by file

  /** What stands for a character in a file name. */
  predicate Kept(c: char, k: char) { if IsDigitOrLetter(c) || c == '-' || c == '_' then k == c else k == '_' }

  lemma {:induction false} SanitizedIs(id: string)
    ensures |Sanitized(id)| == |id| && forall i | 0 <= i < |id| :: Kept(id[i], Sanitized(id)[i])
  {
    if id != "" {
      SanitizedIs(id[1..]);
      Classes(id[0]);
      forall i | 0 <= i < |id| ensures Kept(id[i], Sanitized(id)[i]) {
        if i > 0 { assert Sanitized(id)[i] == Sanitized(id[1..])[i - 1]; }
      }
    }
  }

  /** The file of an id: its letters, digits, `-` and `_` are kept, and an underscore stands for every other
      character; so two ids share a file exactly when they have the same length and differ only in
      characters that are replaced. The blank id has the file of the id "unknown". */
  lemma StemIs(id: string)
    ensures id == "" ==> StemOf(id) == "unknown"
    ensures id != "" ==> |StemOf(id)| == |id| && forall i | 0 <= i < |id| :: Kept(id[i], StemOf(id)[i])
  {
    SanitizedIs(id);
  }

  /** Saving: the record file holds the payload, the temporary file is gone, and every other file is as
      it was. */
  lemma SavedIs(d: Directory, id: string, p: Fields)
    ensures var t := Saved(d, id, p);
      && t.Keys == d.Keys - {Temp(StemOf(id))} + {Record(StemOf(id))}
      && t[Record(StemOf(id))] == Document(p) && Loaded(t, id) == Some(p)
      && forall f | f in d && f != Temp(StemOf(id)) && f != Record(StemOf(id)) :: t[f] == d[f]
  {
    hide StemOf;
  }

  /** Deleting: the record file is gone, and every other file, a temporary one included, is as it was. */
  lemma DeletedIs(d: Directory, id: string)
    ensures var t := Deleted(d, id);
      && t.Keys == d.Keys - {Record(StemOf(id))} && Loaded(t, id) == None && forall f | f in t :: t[f] == d[f]
  {
    hide StemOf;
  }

  /** Listing: every temporary file is gone, every record file stays, and an id is listed exactly when some
      record file that parses carries it and it is not blank. */
  lemma ListedIs(d: Directory, id: string)
    ensures var t := Swept(d);
      && (forall f :: f in t <==> f in d && f.Record?) && (forall f | f in t :: t[f] == d[f])
    ensures id in Listed(d) <==> id != "" && exists f :: f in d && f.Record? && Carries(d[f], id)
  {
    forall f | f in d && f.Record? ensures ListedAs(d[f]) == Some(id) <==> id != "" && Carries(d[f], id) { CarriesIs(d[f], id); }
  }

  predicate Carries(c: Content, id: string) {
    match c
    case Torn => false
    case Document(p) => "execution_id" in p && p["execution_id"] == Str(id)
  }

  lemma CarriesIs(c: Content, id: string)
    ensures ListedAs(c) == Some(id) <==> id != "" && Carries(c, id)
  {}

  /** Loading: the payload of a record file that parses; nothing when there is none or when it does not. */
  lemma LoadedIs(d: Directory, id: string)
    ensures Loaded(d, id) == if Record(StemOf(id)) !in d then None else match d[Record(StemOf(id))]
      case Document(p) => Some(p)
      case Torn => None
  {}

  /** A save that dies before the replace has changed no record file; one that dies after it is done. */
  lemma InterruptedIs(d: Directory, id: string, p: Fields, replaced: bool, partial: Option<Content>)
    ensures var t := Interrupted(d, id, p, replaced, partial); var temp := Temp(StemOf(id));
      if replaced then t == Saved(d, id, p) else
        && (forall f | f != temp :: (f in t <==> f in d) && (f in d ==> t[f] == d[f]))
        && (partial.Some? ==> temp in t && t[temp] == partial.value)
  {
    hide StemOf, Saved;
  }
}

/** The two checkpoint stores. Both keep, per trace, a log of blobs in saving order. */
module CheckpointStores {
  import opened Wrappers
  import opened Decimal
  import opened Sequences
  import opened Sorting

  datatype Blob<D> = Blob(id: string, data: D)

  function Latest<D>(log: seq<Blob<D>>): Option<Blob<D>> {
    if log == [] then None else Some(log[|log| - 1])
  }

  /** Ids of a log, newest first. */
  function Newest<D>(log: seq<Blob<D>>): (ids: seq<string>)
    ensures |ids| == |log| && forall i | 0 <= i < |ids| :: ids[i] == log[|log| - 1 - i].id
  {
    seq(|log|, i requires 0 <= i < |log| => log[|log| - 1 - i].id)
  }

  /** What is left of a log when at most `keep` of the newest stay. */
  function Kept<T>(log: seq<T>, keep: nat): seq<T> {
    if |log| > keep then log[|log| - keep..] else log
  }

  // ---------------------------------------------------------------- in memory

  /** No id is in two places. */
  ghost predicate EachOnce(index: map<string, seq<string>>) {
    forall t, i, u, j | t in index && u in index && 0 <= i < |index[t]| && 0 <= j < |index[u]|
      && index[t][i] == index[u][j] :: t == u && i == j
  }

  /** What is dropped from one place is then nowhere. */
  lemma DropsOldest(index: map<string, seq<string>>, t: string, count: nat)
    requires EachOnce(index) && t in index && count <= |index[t]|
    ensures var index' := index[t := index[t][count..]];
      && EachOnce(index')
      && (forall u, i | u in index' && 0 <= i < |index'[u]| ::
            index'[u][i] == index[u][if u == t then i + count else i] && index'[u][i] !in index[t][..count])
    ensures (set id | id in index[t][..count]) == set i | 0 <= i < count :: index[t][i]
  {
    var index' := index[t := index[t][count..]];
    forall u, i | u in index' && 0 <= i < |index'[u]|
      ensures index'[u][i] == index[u][if u == t then i + count else i] && index'[u][i] !in index[t][..count]
    {
    }
  }

  /** Exactly the blobs of the first `n` ids are gone. */
  ghost predicate Forgets<D>(was: map<string, Blob<D>>, now: map<string, Blob<D>>, ids: seq<string>, n: nat) {
    n <= |ids| && now == was - set i | 0 <= i < n :: ids[i]
  }

  class MemoryStore<D> {
    var store: map<string, Blob<D>>
    var index: map<string, seq<string>>

    constructor ()
      ensures Valid() && forall t :: Log(t) == []
    {
      store, index := map[], map[];
    }

    ghost predicate Valid()
      reads this
    {
      && (forall t, i | t in index && 0 <= i < |index[t]| ::
            index[t][i] in store && store[index[t][i]].id == index[t][i])
      && EachOnce(index)
    }

    function Ids(t: string): seq<string>
      reads this
    {
      if t in index then index[t] else []
    }

    ghost function Log(t: string): (log: seq<Blob<D>>)
      reads this
      requires Valid()
      ensures |log| == |Ids(t)| && forall i | 0 <= i < |log| :: log[i] == store[Ids(t)[i]]
    {
      var ids, blobs := Ids(t), store;
      seq(|ids|, i requires 0 <= i < |ids| && ids[i] in blobs => blobs[ids[i]])
    }

    method Save(t: string, blob: Blob<D>)
      requires Valid() && blob.id !in store
      modifies this
      ensures Valid() && store == old(store)[blob.id := blob]
      ensures forall u :: Log(u) == if u == t then old(Log(t)) + [blob] else old(Log(u))
    {
      ghost var before, ids := store, Ids(t);
      assert forall u | u in index :: forall i | 0 <= i < |index[u]| :: index[u][i] != blob.id;
      store := store[blob.id := blob];
      index := index[t := Ids(t) + [blob.id]];
      assert forall u | u != t :: Ids(u) == old(Ids(u));
      assert Valid();
    }

    method Load(id: string) returns (r: Option<Blob<D>>)
      ensures r == if id in store then Some(store[id]) else None
    {
      r := if id in store then Some(store[id]) else None;
    }

    method LoadLatest(t: string) returns (r: Option<Blob<D>>)
      requires Valid()
      ensures r == Latest(Log(t))
    {
      var ids := Ids(t);
      if ids == [] {
        return None;
      }
      return Some(store[ids[|ids| - 1]]);
    }

    method List(t: string) returns (r: seq<string>)
      requires Valid()
      ensures r == Newest(Log(t))
    {
      var ids := Ids(t);
      r := seq(|ids|, i requires 0 <= i < |ids| => ids[|ids| - 1 - i]);
    }

    method Prune(t: string, keep: nat) returns (removed: nat)
      requires Valid()
      modifies this
      ensures Valid() && removed == |old(Log(t))| - |Kept(old(Log(t)), keep)|
      ensures store.Keys <= old(store.Keys) && Forgets(old(store), store, old(Ids(t)), removed)
      ensures forall u :: Log(u) == if u == t then Kept(old(Log(t)), keep) else old(Log(u))
    {
      hide EachOnce;
      if t !in index || |index[t]| <= keep {
        return 0;
      }
      var count := |index[t]| - keep;
      var gone := index[t][..count];
      ghost var was := index;
      index := index[t := index[t][count..]];
      store := store - set id | id in gone;
      DropsOldest(was, t, count);
      return count;
    }
  }

  // ------------------------------------------------------------------ file names

  predicate EndsWith(s: string, tail: string) {
    |tail| <= |s| && s[|s| - |tail|..] == tail
  }

  /** A file the scan accepts: its number, its name, and the id in its name. */
  datatype Entry = Entry(number: nat, name: string, id: string)

  /** Temporary names, names without an underscore and names not starting with a number are skipped. */
  function EntryOf(name: string): Option<Entry> {
    if EndsWith(name, ".tmp") then None
    else
      match Find(name, '_')
      case None => None
      case Some(k) =>
        match Parse(name[..k])
        case None => None
        case Some(n) => Some(Entry(n, name, name[k + 1..]))
  }

  function FinalName(number: nat, id: string): string {
    Render(number) + "_" + id
  }

  /** Ids are Base58 text. */
  predicate IsId(id: string) {
    forall c | c in id :: IsDigit(c) || 'A' <= c <= 'Z' || 'a' <= c <= 'z'
  }

  /** What a save writes, the scan reads back; a temporary name it never accepts. */
  lemma NameRoundTrip(number: nat, id: string)
    requires number <= U64_MAX && IsId(id)
    ensures EntryOf(FinalName(number, id)) == Some(Entry(number, FinalName(number, id), id))
    ensures EntryOf(FinalName(number, id) + ".tmp") == None
  {
    hide Render, Parse, EndsWith, Find, IsId, FinalName;
    RoundTrip(number);
    NameParts(number, id);
    NotTemporary(FinalName(number, id));
    var name := FinalName(number, id);
    Temporary(name);
  }

  /** A final name has no dot, and its first underscore ends the number. */
  lemma NameParts(number: nat, id: string)
    requires IsId(id)
    ensures var name := FinalName(number, id);
      && '.' !in name && Find(name, '_').Some?
      && name[..Find(name, '_').value] == Render(number) && name[Find(name, '_').value + 1..] == id
  {
    hide Render;
    var name, digits := FinalName(number, id), Render(number);
    assert name[|digits|] == '_' && name[..|digits|] == digits && name[|digits| + 1..] == id;
    forall k | 0 <= k < |digits|
      ensures name[k] != '_' && name[k] != '.'
    {
      assert digits[k] in digits;
    }
    forall k | |digits| < k < |name|
      ensures name[k] != '_' && name[k] != '.'
    {
      assert name[k] == id[k - |digits| - 1] && id[k - |digits| - 1] in id;
    }
  }

  lemma NotTemporary(name: string)
    requires '.' !in name
    ensures !EndsWith(name, ".tmp")
  {
    assert |name| >= 4 ==> name[|name| - 4..][0] == name[|name| - 4];
  }

  lemma Temporary(name: string)
    ensures EndsWith(name + ".tmp", ".tmp")
  {
  }

  /** Entries sort by falling number. */
  function Rank(e: Entry): int {
    0 - e.number
  }

  // --------------------------------------------------------------------- on disk

  /** Contents of a file: a whole envelope, or whatever an interrupted write left. */
  datatype File<D> = Envelope(blob: Blob<D>) | Torn

  /** A saved blob and its number. */
  datatype Saved<D> = Saved(number: nat, blob: Blob<D>)

  function NameOf<D>(s: Saved<D>): string {
    FinalName(s.number, s.blob.id)
  }

  function Top<D>(log: seq<Saved<D>>): nat {
    if log == [] then 0 else log[|log| - 1].number
  }

  function BlobsOf<D>(log: seq<Saved<D>>): (r: seq<Blob<D>>)
    ensures |r| == |log| && forall i | 0 <= i < |r| :: r[i] == log[i].blob
  {
    seq(|log|, i requires 0 <= i < |log| => log[i].blob)
  }

  lemma BlobsOfMore<D>(log: seq<Saved<D>>, s: Saved<D>)
    ensures BlobsOf(log + [s]) == BlobsOf(log) + [s.blob]
  {
  }

  /** Pruning leaves the newest blob where it was, even when it stops half way. */
  lemma BlobsOfKept<D>(log: seq<Saved<D>>, keep: nat, i: nat)
    requires i <= |log|
    ensures BlobsOf(Kept(log, keep)) == Kept(BlobsOf(log), keep)
    ensures keep > 0 && log != [] ==> Latest(BlobsOf(log[..i] + Kept(log, keep))) == Latest(BlobsOf(log))
    ensures keep > 0 ==> Latest(BlobsOf(Kept(log, keep))) == Latest(BlobsOf(log))
  {
  }

  /** The directory holds the log, and every other name in it is one the scan skips. */
  ghost predicate Holds<D>(files: map<string, File<D>>, log: seq<Saved<D>>) {
    && (forall i | 0 <= i < |log| :: 0 < log[i].number <= U64_MAX && IsId(log[i].blob.id))
    && (forall i, j | 0 <= i < j < |log| :: log[i].number < log[j].number)
    && (forall i | 0 <= i < |log| :: NameOf(log[i]) in files && files[NameOf(log[i])] == Envelope(log[i].blob))
    && (forall name | name in files && EntryOf(name).Some? :: exists i :: 0 <= i < |log| && NameOf(log[i]) == name)
  }

  function EntryFor<D>(s: Saved<D>): Entry {
    Entry(s.number, NameOf(s), s.blob.id)
  }

  /** The entries of a log, newest first. */
  function Entries<D>(log: seq<Saved<D>>): (r: seq<Entry>)
    ensures |r| == |log| && forall i | 0 <= i < |r| :: r[i] == EntryFor(log[|log| - 1 - i])
  {
    seq(|log|, i requires 0 <= i < |log| => EntryFor(log[|log| - 1 - i]))
  }

  /** Every name the scan accepts is that of a logged blob. */
  lemma HeldEntry<D>(files: map<string, File<D>>, log: seq<Saved<D>>, name: string) returns (i: nat)
    requires Holds(files, log) && name in files && EntryOf(name).Some?
    ensures i < |log| && NameOf(log[i]) == name && EntryOf(name) == Some(EntryFor(log[i]))
  {
    i :| 0 <= i < |log| && NameOf(log[i]) == name;
    NameRoundTrip(log[i].number, log[i].blob.id);
  }

  lemma EntriesDescend<D>(files: map<string, File<D>>, log: seq<Saved<D>>)
    requires Holds(files, log)
    ensures Ascending(Rank, Entries(log))
  {
  }

  /** The directory listing, in whatever order, sorts to the log. */
  lemma ScanSorts<D>(files: map<string, File<D>>, log: seq<Saved<D>>, out: seq<Entry>)
    requires Holds(files, log) && DistinctKeys(Rank, out)
    requires forall e :: e in out <==> e in Entries(log)
    ensures Sort(Rank, out) == Entries(log) && |out| == |log|
  {
    SortFacts(Rank, out);
    SameElements(Sort(Rank, out), out);
    EntriesDescend(files, log);
    SameAscending(Rank, Sort(Rank, out), Entries(log));
  }

  method Scan<D>(files: map<string, File<D>>, ghost log: seq<Saved<D>>) returns (out: seq<Entry>)
    requires Holds(files, log)
    ensures DistinctKeys(Rank, out) && forall e :: e in out <==> e in Entries(log)
  {
    hide EntryOf, NameOf, Holds;
    var names := files.Keys;
    out := [];
    while names != {}
      invariant names <= files.Keys && DistinctKeys(Rank, out)
      invariant forall e | e in out :: e.name in files && e.name !in names && EntryOf(e.name) == Some(e)
      invariant forall name | name in files && name !in names && EntryOf(name).Some? :: EntryOf(name).value in out
    {
      var name :| name in names;
      names := names - {name};
      var entry := EntryOf(name);
      if entry.Some? {
        NewNumber(files, log, name, out);
        out := out + [entry.value];
      }
    }
    ScannedAll(files, log, out);
  }

  /** Two names with the same number are the same name. */
  lemma NewNumber<D>(files: map<string, File<D>>, log: seq<Saved<D>>, name: string, out: seq<Entry>)
    requires Holds(files, log) && name in files && EntryOf(name).Some?
    requires forall e | e in out :: e.name in files && e.name != name && EntryOf(e.name) == Some(e)
    ensures EntryOf(name).value.name == name
    ensures forall e | e in out :: e.number != EntryOf(name).value.number
  {
    var i := HeldEntry(files, log, name);
    forall e | e in out
      ensures e.number != EntryOf(name).value.number
    {
      var j := HeldEntry(files, log, e.name);
    }
  }

  lemma ScannedAll<D>(files: map<string, File<D>>, log: seq<Saved<D>>, out: seq<Entry>)
    requires Holds(files, log)
    requires forall e | e in out :: e.name in files && EntryOf(e.name) == Some(e)
    requires forall name | name in files && EntryOf(name).Some? :: EntryOf(name).value in out
    ensures forall e :: e in out <==> e in Entries(log)
  {
    forall e
      ensures e in out <==> e in Entries(log)
    {
      if e in out {
        var i := HeldEntry(files, log, e.name);
        assert Entries(log)[|log| - 1 - i] == e;
      }
      if e in Entries(log) {
        var k :| 0 <= k < |log| && Entries(log)[k] == e;
        NameRoundTrip(e.number, e.id);
      }
    }
  }

  method Highest(entries: seq<Entry>) returns (r: Option<Entry>)
    ensures r.None? <==> entries == []
    ensures r.Some? ==> r.value in entries && forall e | e in entries :: e.number <= r.value.number
  {
    if entries == [] {
      return None;
    }
    var best := entries[0];
    for i := 1 to |entries|
      invariant best in entries && forall k | 0 <= k < i :: entries[k].number <= best.number
    {
      if entries[i].number >= best.number {
        best := entries[i];
      }
    }
    return Some(best);
  }

  lemma HighestIsLast<D>(files: map<string, File<D>>, log: seq<Saved<D>>, entries: seq<Entry>, best: Entry)
    requires Holds(files, log) && forall e :: e in entries <==> e in Entries(log)
    requires best in entries && forall e | e in entries :: e.number <= best.number
    ensures log != [] && best == EntryFor(log[|log| - 1])
  {
    var k :| 0 <= k < |log| && Entries(log)[k] == best;
    assert Entries(log)[0] in entries;
    EntriesDescend(files, log);
  }

  /** A file under a name the scan skips changes nothing. */
  lemma SkippedFile<D>(files: map<string, File<D>>, log: seq<Saved<D>>, name: string, file: File<D>)
    requires Holds(files, log) && EntryOf(name).None?
    ensures Holds(files[name := file], log) && Holds(files - {name}, log)
  {
    forall i | 0 <= i < |log|
      ensures NameOf(log[i]) != name
    {
      NameRoundTrip(log[i].number, log[i].blob.id);
    }
  }

  /** The rename adds the blob at the end of the log. */
  lemma Renamed<D>(files: map<string, File<D>>, log: seq<Saved<D>>, s: Saved<D>)
    requires Holds(files, log) && IsId(s.blob.id) && s.number == Top(log) + 1 <= U64_MAX
    ensures Holds(files[NameOf(s) := Envelope(s.blob)], log + [s])
  {
    hide FinalName, EntryOf, IsId;
    NameRoundTrip(s.number, s.blob.id);
    forall i | 0 <= i < |log|
      ensures NameOf(log[i]) != NameOf(s)
    {
      NameRoundTrip(log[i].number, log[i].blob.id);
    }
    var more := log + [s];
    assert more[|log|] == s;
    forall name | name in files && EntryOf(name).Some?
      ensures exists i :: 0 <= i < |more| && NameOf(more[i]) == name
    {
      var i := HeldEntry(files, log, name);
      assert more[i] == log[i];
    }
  }

  /** Removing the file of a logged blob takes that blob out of the log. */
  lemma Removed<D>(files: map<string, File<D>>, log: seq<Saved<D>>, k: nat)
    requires Holds(files, log) && k < |log|
    ensures Holds(files - {NameOf(log[k])}, log[..k] + log[k + 1..])
  {
    hide EntryOf, FinalName, IsId;
    var less := log[..k] + log[k + 1..];
    NameRoundTrip(log[k].number, log[k].blob.id);
    forall i | 0 <= i < |log| && i != k
      ensures NameOf(log[i]) != NameOf(log[k])
    {
      NameRoundTrip(log[i].number, log[i].blob.id);
    }
    forall name | name in files && EntryOf(name).Some? && name != NameOf(log[k])
      ensures exists i :: 0 <= i < |less| && NameOf(less[i]) == name
    {
      var i := HeldEntry(files, log, name);
      assert less[if i < k then i else i - 1] == log[i];
    }
  }

  /** Where a save may end early: an error from the system, or the end of the process. `AfterRename`
      means the file is in place but nobody was told. */
  datatype Fault = NoFault | AtDirectory | AtCreate | AtWrite | AtRename | AfterRename

  datatype StoreError = Storage | NumberOverflow | Corrupted

  class FileStore<D> {
    var dirs: map<string, map<string, File<D>>>
    ghost var logs: map<string, seq<Saved<D>>>

    constructor ()
      ensures Valid() && forall t :: Log(t) == [] && Blobs(t) == []
    {
      dirs, logs := map[], map[];
    }

    ghost predicate Valid()
      reads this
    {
      dirs.Keys == logs.Keys && forall t | t in dirs :: Holds(dirs[t], logs[t])
    }

    ghost function Log(t: string): seq<Saved<D>>
      reads this
    {
      if t in logs then logs[t] else []
    }

    /** The same view of a trace as the other store has. */
    ghost function Blobs(t: string): seq<Blob<D>>
      reads this
    {
      BlobsOf(Log(t))
    }

    /** Replaces the contents of one directory. */
    method Put(t: string, files: map<string, File<D>>, ghost log: seq<Saved<D>>)
      requires Valid() && Holds(files, log)
      modifies this
      ensures Valid() && dirs == old(dirs)[t := files] && logs == old(logs)[t := log]
    {
      hide Holds;
      dirs, logs := dirs[t := files], logs[t := log];
    }

    /** One more than the highest number in the directory. */
    method NextNumber(t: string) returns (r: Result<nat, StoreError>)
      requires Valid() && t in dirs && t in logs
      ensures r == if Top(logs[t]) < U64_MAX then Ok(Top(logs[t]) + 1) else Err(NumberOverflow)
    {
      hide Valid, Holds, EntryOf, FinalName, IsId;
      Present(t);
      var entries := Scan(dirs[t], logs[t]);
      var best := Highest(entries);
      if best.None? {
        ScanSorts(dirs[t], logs[t], entries);
        return Ok(1);
      }
      HighestIsLast(dirs[t], logs[t], entries, best.value);
      return if best.value.number < U64_MAX then Ok(best.value.number + 1) else Err(NumberOverflow);
    }

    /** The envelope goes into a temporary file, which is then renamed. */
    method Write(t: string, number: nat, blob: Blob<D>, fault: Fault) returns (r: Result<(), StoreError>)
      requires Valid() && IsId(blob.id) && t in dirs && t in logs && number == Top(logs[t]) + 1 <= U64_MAX
      modifies this
      ensures Valid() && t in logs
      ensures forall u | u != t :: Log(u) == old(Log(u))
      ensures r.Ok? <==> fault !in {AtWrite, AtRename, AfterRename}
      ensures logs[t] == if fault in {AtWrite, AtRename} then old(logs[t]) else old(logs[t]) + [Saved(number, blob)]
    {
      hide Valid, Holds, FinalName, EntryOf, IsId, Top;
      Present(t);
      ghost var log := logs[t];
      var name := FinalName(number, blob.id);
      NameRoundTrip(number, blob.id);
      SkippedFile(dirs[t], log, name + ".tmp", Torn);
      Put(t, dirs[t][name + ".tmp" := Torn], log);
      if fault == AtWrite {
        return Err(Storage);
      }
      SkippedFile(dirs[t], log, name + ".tmp", Envelope(blob));
      Put(t, dirs[t][name + ".tmp" := Envelope(blob)], log);
      if fault == AtRename {
        return Err(Storage);
      }
      SkippedFile(dirs[t], log, name + ".tmp", Torn);
      Renamed(dirs[t] - {name + ".tmp"}, log, Saved(number, blob));
      Put(t, (dirs[t] - {name + ".tmp"})[name := Envelope(blob)], log + [Saved(number, blob)]);
      if fault == AfterRename {
        return Err(Storage);
      }
      return Ok(());
    }

    method Save(t: string, blob: Blob<D>, fault: Fault) returns (r: Result<(), StoreError>)
      requires Valid() && IsId(blob.id)
      modifies this
      ensures Valid()
      ensures forall u | u != t :: Log(u) == old(Log(u))
      ensures fault == NoFault ==> (r.Ok? <==> Top(old(Log(t))) < U64_MAX)
      ensures r.Ok? ==> fault == NoFault
      ensures Log(t) == if r.Ok? || (fault == AfterRename && Top(old(Log(t))) < U64_MAX)
                        then old(Log(t)) + [Saved(Top(old(Log(t))) + 1, blob)] else old(Log(t))
    {
      hide Valid, Holds, FinalName, EntryOf, IsId, Top;
      if fault == AtDirectory {
        return Err(Storage);
      }
      if t !in dirs {
        EmptyDirectory<D>();
        NoDirectory(t);
        Put(t, map[], []);
      }
      Present(t);
      ghost var log := logs[t];
      var number :- NextNumber(t);
      if fault == AtCreate {
        return Err(Storage);
      }
      r := Write(t, number, blob, fault);
    }

    lemma NoDirectory(t: string)
      requires Valid() && t !in dirs
      ensures Log(t) == []
    {
    }

    lemma Present(t: string)
      requires Valid() && t in dirs
      ensures t in logs && Holds(dirs[t], logs[t])
    {
    }

    method LoadLatest(t: string) returns (r: Result<Option<Blob<D>>, StoreError>)
      requires Valid()
      ensures r == Ok(Latest(Blobs(t)))
    {
      hide Valid, EntryOf, FinalName, IsId;
      if t !in dirs {
        NoDirectory(t);
        return Ok(None);
      }
      Present(t);
      var entries := Scan(dirs[t], logs[t]);
      var best := Highest(entries);
      if best.None? {
        ScanSorts(dirs[t], logs[t], entries);
        return Ok(None);
      }
      HighestIsLast(dirs[t], logs[t], entries, best.value);
      match dirs[t][best.value.name] {
        case Envelope(blob) => return Ok(Some(blob));
        case Torn => return Err(Corrupted);
      }
    }

    method List(t: string) returns (r: seq<string>)
      requires Valid()
      ensures r == Newest(Blobs(t))
    {
      hide Valid, Holds, EntryOf, FinalName, Sort;
      if t !in dirs {
        NoDirectory(t);
        return [];
      }
      Present(t);
      var entries := Scan(dirs[t], logs[t]);
      ScanSorts(dirs[t], logs[t], entries);
      var sorted := Sort(Rank, entries);
      r := seq(|sorted|, i requires 0 <= i < |sorted| => sorted[i].id);
    }

    /** `failAt`: the removal after that many fails. Whatever happens, the newest `keep` blobs stay. */
    method Prune(t: string, keep: nat, failAt: Option<nat>) returns (r: Result<nat, StoreError>)
      requires Valid()
      modifies this
      ensures Valid()
      ensures forall u | u != t :: Log(u) == old(Log(u))
      ensures failAt.None? ==> r.Ok?
      ensures r.Ok? ==> r.value == |old(Log(t))| - |Kept(old(Log(t)), keep)| && Log(t) == Kept(old(Log(t)), keep)
      ensures r.Err? ==> exists i | 0 <= i <= |old(Log(t))| ::
                           Log(t) == old(Log(t))[..i] + Kept(old(Log(t)), keep)
    {
      hide Valid, Holds, EntryOf, FinalName, Sort;
      if t !in dirs {
        NoDirectory(t);
        return Ok(0);
      }
      Present(t);
      var entries := Scan(dirs[t], logs[t]);
      ScanSorts(dirs[t], logs[t], entries);
      if |entries| <= keep {
        return Ok(0);
      }
      var sorted := Sort(Rank, entries);
      r := RemoveAll(t, sorted[keep..], failAt);
      if r.Err? {
        assert Kept(old(Log(t)), keep) == old(logs[t])[|sorted[keep..]|..];
      }
    }

    /** Removes the files of the oldest entries, the newest of them first. */
    method RemoveAll(t: string, doomed: seq<Entry>, failAt: Option<nat>) returns (r: Result<nat, StoreError>)
      requires Valid() && t in dirs && |doomed| <= |logs[t]| && doomed == Entries(logs[t])[|logs[t]| - |doomed|..]
      modifies this
      ensures Valid() && t in dirs && t in logs
      ensures forall u | u != t :: Log(u) == old(Log(u))
      ensures failAt.None? ==> r.Ok?
      ensures r.Ok? ==> r.value == |doomed| && logs[t] == old(logs[t])[|doomed|..]
      ensures r.Err? ==> exists i | 0 <= i <= |doomed| :: logs[t] == old(logs[t])[..i] + old(logs[t])[|doomed|..]
    {
      hide Valid, Holds, EntryOf, FinalName;
      Present(t);
      ghost var log, n := logs[t], |doomed|;
      assert log[..n] + log[n..] == log;
      for deleted := 0 to |doomed|
        invariant Valid() && t in dirs && logs == old(logs)[t := log[..n - deleted] + log[n..]]
      {
        if failAt == Some(deleted) {
          return Err(Storage);
        }
        Present(t);
        ghost var k := n - deleted - 1;
        Removed(dirs[t], logs[t], k);
        assert logs[t][k] == log[k] && doomed[deleted] == EntryFor(log[k]);
        assert logs[t][..k] + logs[t][k + 1..] == log[..k] + log[n..];
        Put(t, dirs[t] - {doomed[deleted].name}, log[..k] + log[n..]);
      }
      return Ok(|doomed|);
    }
  }

  lemma EmptyDirectory<D>()
    ensures Holds<D>(map[], [])
  {
  }

  // ------------------------------------------------------------ the two agree

  datatype Op<D> =
    | SaveOp(trace: string, blob: Blob<D>)
    | LatestOp(trace: string)
    | ListOp(trace: string)
    | PruneOp(trace: string, keep: nat)

  datatype Answer<D> = Done | Found(blob: Option<Blob<D>>) | Listed(ids: seq<string>) | Pruned(count: nat) | Failed

  /** Ids saved by a sequence of operations. */
  function SavedIds<D>(ops: seq<Op<D>>): set<string> {
    set k | 0 <= k < |ops| && ops[k].SaveOp? :: ops[k].blob.id
  }

  /** No operation saves an id used before. */
  ghost predicate FreshIds<D>(ops: seq<Op<D>>, used: set<string>) {
    forall k | 0 <= k < |ops| && ops[k].SaveOp? ::
      IsId(ops[k].blob.id) && ops[k].blob.id !in used && ops[k].blob.id !in SavedIds(ops[..k])
  }

  ghost predicate Agree<D>(a: MemoryStore<D>, b: FileStore<D>)
    reads a, b
  {
    a.Valid() && b.Valid() && forall t :: a.Log(t) == b.Blobs(t)
  }

  method SaveBoth<D>(t: string, blob: Blob<D>, a: MemoryStore<D>, b: FileStore<D>) returns (y: Answer<D>)
    requires Agree(a, b) && IsId(blob.id) && blob.id !in a.store && Top(b.Log(t)) < U64_MAX
    modifies a, b
    ensures y == Done && Agree(a, b)
    ensures a.store.Keys == old(a.store.Keys) + {blob.id}
    ensures forall u :: Top(b.Log(u)) <= Top(old(b.Log(u))) + 1
  {
    hide MemoryStore.Valid, FileStore.Valid, IsId;
    a.Save(t, blob);
    var r := b.Save(t, blob, NoFault);
    forall u
      ensures a.Log(u) == b.Blobs(u)
    {
      assert old(a.Log(u)) == old(b.Blobs(u));
      assert u != t ==> b.Blobs(u) == old(b.Blobs(u));
      assert b.Blobs(t) == old(b.Blobs(t)) + [blob];
    }
    y := if r.Ok? then Done else Failed;
  }

  method PruneBoth<D>(t: string, keep: nat, a: MemoryStore<D>, b: FileStore<D>) returns (x: Answer<D>, y: Answer<D>)
    requires Agree(a, b)
    modifies a, b
    ensures x == y && Agree(a, b)
    ensures a.store.Keys <= old(a.store.Keys)
    ensures forall u :: Top(b.Log(u)) <= Top(old(b.Log(u)))
  {
    hide MemoryStore.Valid, FileStore.Valid, Top, Forgets, BlobsOf, Kept, MemoryStore.Log, FileStore.Log,
         MemoryStore.Ids;
    KeepsTop(b.Log(t), keep);
    BlobsOfKept(b.Log(t), keep, 0);
    BlobsLength(b.Log(t));
    var n := a.Prune(t, keep);
    var r := b.Prune(t, keep, None);
    forall u
      ensures a.Log(u) == b.Blobs(u)
    {
      assert old(a.Log(u)) == old(b.Blobs(u));
      assert u != t ==> b.Blobs(u) == old(b.Blobs(u));
      assert b.Blobs(t) == Kept(old(b.Blobs(t)), keep);
    }
    x, y := Pruned(n), if r.Ok? then Pruned(r.value) else Failed;
  }

  lemma BlobsLength<D>(log: seq<Saved<D>>)
    ensures |BlobsOf(log)| == |log|
  {
  }

  lemma KeepsTop<D>(log: seq<Saved<D>>, keep: nat)
    ensures Top(Kept(log, keep)) <= Top(log)
  {
  }

  method Step<D>(op: Op<D>, a: MemoryStore<D>, b: FileStore<D>) returns (x: Answer<D>, y: Answer<D>)
    requires Agree(a, b)
    requires op.SaveOp? ==> IsId(op.blob.id) && op.blob.id !in a.store && Top(b.Log(op.trace)) < U64_MAX
    modifies a, b
    ensures x == y && Agree(a, b)
    ensures a.store.Keys <= old(a.store.Keys) + if op.SaveOp? then {op.blob.id} else {}
    ensures forall t :: Top(b.Log(t)) <= Top(old(b.Log(t))) + 1
  {
    hide MemoryStore.Valid, FileStore.Valid, Top, IsId;
    match op {
      case SaveOp(t, blob) =>
        x := Done;
        y := SaveBoth(t, blob, a, b);
      case LatestOp(t) =>
        var found := a.LoadLatest(t);
        var r := b.LoadLatest(t);
        x, y := Found(found), if r.Ok? then Found(r.value) else Failed;
      case ListOp(t) =>
        var ids := a.List(t);
        var names := b.List(t);
        x, y := Listed(ids), Listed(names);
      case PruneOp(t, keep) =>
        x, y := PruneBoth(t, keep, a, b);
    }
  }

  /** The same operations on both stores give the same answers and leave the same logs. */
  method RunBoth<D>(ops: seq<Op<D>>, a: MemoryStore<D>, b: FileStore<D>)
    returns (xs: seq<Answer<D>>, ys: seq<Answer<D>>)
    requires Agree(a, b) && FreshIds(ops, a.store.Keys)
    requires forall t :: Top(b.Log(t)) + |ops| <= U64_MAX
    modifies a, b
    ensures xs == ys && |xs| == |ops| && Agree(a, b)
  {
    xs, ys := [], [];
    for i := 0 to |ops|
      invariant xs == ys && |xs| == i && Agree(a, b)
      invariant a.store.Keys <= old(a.store.Keys) + SavedIds(ops[..i])
      invariant forall t :: Top(b.Log(t)) <= Top(old(b.Log(t))) + i
    {
      hide Agree, Top, IsId;
      SavedMore(ops, i);
      var x, y := Step(ops[i], a, b);
      xs, ys := xs + [x], ys + [y];
    }
  }

  lemma SavedMore<D>(ops: seq<Op<D>>, i: nat)
    requires i < |ops|
    ensures SavedIds(ops[..i + 1]) == SavedIds(ops[..i]) + if ops[i].SaveOp? then {ops[i].blob.id} else {}
  {
  }
}

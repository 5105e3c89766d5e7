/** The incremental knowledge-base indexer (src/ai_sdr/kb/indexer.py) against a rebuild
    from scratch, for one tenant.

    Hashing, chunking with embedding, and the first path component are parameters. */
module KbIndexer {
  import opened Wrappers

  datatype Key = Key(kb: string, path: string)

  /** `content` is None when the bytes do not decode. */
  datatype File = File(path: string, content: Option<string>)

  datatype Doc<C> = Doc(hash: string, content: string, chunks: seq<C>)

  datatype IndexResult = IndexResult(
    indexed: seq<string>, skipped: seq<string>, pruned: seq<string>, failed: seq<string>)

  datatype Tools<!C(!new)> = Tools(hash: string -> string, split: string -> seq<C>, kbOf: string -> string) {

    function KeyOf(path: string): Key {
      Key(kbOf(path), path)
    }

    function Build(content: string): Doc<C> {
      Doc(hash(content), content, split(content))
    }

    /** Every row carries the chunks and hash of its content, under its path's knowledge base. */
    ghost predicate Consistent(docs: map<Key, Doc<C>>) {
      forall k | k in docs ::
        docs[k].hash == hash(docs[k].content) && docs[k].chunks == split(docs[k].content) && k.kb == kbOf(k.path)
    }

    predicate InScope(scope: Option<string>, k: Key) {
      scope.None? || k.kb == scope.value
    }

    /** The files of a scoped run: those below that knowledge base's directory. */
    function Listed(disk: seq<File>, scope: Option<string>): (r: seq<File>)
      ensures forall f | f in r :: f in disk && InScope(scope, KeyOf(f.path))
      ensures forall f | f in disk && InScope(scope, KeyOf(f.path)) :: f in r
    {
      if disk == [] then []
      else (if InScope(scope, KeyOf(disk[0].path)) then [disk[0]] else []) + Listed(disk[1..], scope)
    }

    /** A from-scratch index of the readable files. */
    ghost function Rebuild(files: seq<File>): (docs: map<Key, Doc<C>>)
      ensures forall k :: k in docs <==> exists f | f in files :: f.content.Some? && k == KeyOf(f.path)
    {
      if files == [] then map[]
      else
        var f, docs := files[|files| - 1], Rebuild(files[..|files| - 1]);
        assert files == files[..|files| - 1] + [f];
        if f.content.Some? then docs[KeyOf(f.path) := Build(f.content.value)] else docs
    }

    predicate Unchanged(docs: map<Key, Doc<C>>, f: File)
      requires f.content.Some?
    {
      KeyOf(f.path) in docs && docs[KeyOf(f.path)].hash == hash(f.content.value)
    }

    function IndexFile(docs: map<Key, Doc<C>>, f: File): map<Key, Doc<C>> {
      if f.content.None? || Unchanged(docs, f) then docs else docs[KeyOf(f.path) := Build(f.content.value)]
    }

    function Report(r: IndexResult, docs: map<Key, Doc<C>>, f: File): IndexResult {
      if f.content.None? then r.(failed := r.failed + [f.path])
      else if Unchanged(docs, f) then r.(skipped := r.skipped + [f.path])
      else r.(indexed := r.indexed + [f.path])
    }

    ghost function IndexFiles(docs: map<Key, Doc<C>>, files: seq<File>): map<Key, Doc<C>> {
      if files == [] then docs else IndexFile(IndexFiles(docs, files[..|files| - 1]), files[|files| - 1])
    }

    ghost function Reports(docs: map<Key, Doc<C>>, files: seq<File>): IndexResult {
      if files == [] then IndexResult([], [], [], [])
      else
        var before := files[..|files| - 1];
        Report(Reports(docs, before), IndexFiles(docs, before), files[|files| - 1])
    }

    predicate Stale(files: seq<File>, scope: Option<string>, k: Key) {
      InScope(scope, k) && !exists f | f in files :: f.path == k.path
    }

    ghost function Prune(docs: map<Key, Doc<C>>, files: seq<File>, scope: Option<string>): map<Key, Doc<C>> {
      map k | k in docs && !Stale(files, scope, k) :: docs[k]
    }

    lemma PruneRemoves(docs: map<Key, Doc<C>>, files: seq<File>, scope: Option<string>, removed: set<Key>)
      requires removed <= docs.Keys
      requires forall k | k in docs :: k in removed <==> Stale(files, scope, k)
      ensures docs - removed == Prune(docs, files, scope)
    {
    }

    // ---------------------------------------------------------------- lemmas

    ghost predicate Injective() {
      forall a, b | hash(a) == hash(b) :: a == b
    }

    lemma OverlayStep(docs: map<Key, Doc<C>>, built: map<Key, Doc<C>>, f: File)
      requires Injective() && Consistent(docs + built)
      ensures IndexFile(docs + built, f)
           == docs + (if f.content.Some? then built[KeyOf(f.path) := Build(f.content.value)] else built)
      ensures Consistent(IndexFile(docs + built, f))
    {
      if f.content.Some? {
        var now, key, doc := docs + built, KeyOf(f.path), Build(f.content.value);
        assert now[key := doc] == docs + built[key := doc];
        if Unchanged(now, f) {
          assert now[key] == Build(now[key].content) && now[key].content == f.content.value;
          assert now[key := doc] == now;
        }
      }
    }

    /** Indexing overlays the rebuilt rows on the table. */
    lemma {:induction false} IndexFilesOverlays(docs: map<Key, Doc<C>>, files: seq<File>)
      requires Injective() && Consistent(docs)
      ensures IndexFiles(docs, files) == docs + Rebuild(files)
      ensures Consistent(IndexFiles(docs, files))
    {
      if files == [] {
        assert docs + map[] == docs;
      } else {
        var before := files[..|files| - 1];
        IndexFilesOverlays(docs, before);
        OverlayStep(docs, Rebuild(before), files[|files| - 1]);
      }
    }

    /** The table after a pruning run: rows out of scope as they were, a row for every
        readable file as a rebuild makes it, the old row of every listed file that
        could not be read, and nothing else. */
    ghost predicate Refreshed(docs: map<Key, Doc<C>>, files: seq<File>, scope: Option<string>, after: map<Key, Doc<C>>) {
      && (forall k :: k in after <==>
            || k in Rebuild(files)
            || (k in docs && !InScope(scope, k))
            || (k in docs && exists f | f in files :: f.path == k.path))
      && (forall k | k in after :: after[k] == if k in Rebuild(files) then Rebuild(files)[k] else docs[k])
    }

    ghost function PrunedRun(docs: map<Key, Doc<C>>, disk: seq<File>, scope: Option<string>): map<Key, Doc<C>> {
      Prune(IndexFiles(docs, Listed(disk, scope)), Listed(disk, scope), scope)
    }

    lemma PrunedTable(docs: map<Key, Doc<C>>, disk: seq<File>, scope: Option<string>)
      requires Injective() && Consistent(docs)
      ensures Refreshed(docs, Listed(disk, scope), scope, PrunedRun(docs, disk, scope))
      ensures Consistent(PrunedRun(docs, disk, scope))
    {
      IndexFilesOverlays(docs, Listed(disk, scope));
    }

    ghost function Scoped(docs: map<Key, Doc<C>>, scope: Option<string>): map<Key, Doc<C>> {
      map k | k in docs && InScope(scope, k) :: docs[k]
    }

    /** A listed file that could not be read and whose old row nothing replaces. */
    ghost predicate Left(docs: map<Key, Doc<C>>, files: seq<File>, f: File) {
      f in files && KeyOf(f.path) in docs && KeyOf(f.path) !in Rebuild(files)
    }

    lemma RefreshedIsRebuild(docs: map<Key, Doc<C>>, files: seq<File>, scope: Option<string>, after: map<Key, Doc<C>>)
      requires Consistent(docs) && Refreshed(docs, files, scope, after)
      requires forall f | f in files :: InScope(scope, KeyOf(f.path))
      ensures Scoped(after, scope) == Rebuild(files) <==> !exists f :: Left(docs, files, f)
    {
      if f :| Left(docs, files, f) {
        assert KeyOf(f.path) in Scoped(after, scope);
      } else {
        forall k | k in Scoped(after, scope) ensures k in Rebuild(files) {
          var f :| f in files && f.path == k.path;
          assert !Left(docs, files, f) && k == KeyOf(f.path);
        }
        assert Scoped(after, scope) == Rebuild(files);
      }
    }

    /** A pruning run leaves, in its scope, exactly a from-scratch index of the files if
        and only if no unreadable file had a row. */
    lemma PrunedTableIsRebuild(docs: map<Key, Doc<C>>, disk: seq<File>, scope: Option<string>)
      requires Injective() && Consistent(docs)
      ensures Scoped(PrunedRun(docs, disk, scope), scope) == Rebuild(Listed(disk, scope))
         <==> !exists f :: Left(docs, Listed(disk, scope), f)
    {
      PrunedTable(docs, disk, scope);
      RefreshedIsRebuild(docs, Listed(disk, scope), scope, PrunedRun(docs, disk, scope));
    }

    /** A second run over the same readable files skips every one and changes nothing. */
    lemma {:induction false} SecondRunSkips(docs: map<Key, Doc<C>>, files: seq<File>)
      requires forall f | f in files :: f.content.Some? && Unchanged(docs, f)
      ensures IndexFiles(docs, files) == docs
      ensures Reports(docs, files)
           == IndexResult([], seq(|files|, i requires 0 <= i < |files| => files[i].path), [], [])
    {
      if files != [] {
        var before, f := files[..|files| - 1], files[|files| - 1];
        assert files == before + [f];
        SecondRunSkips(docs, before);
      }
    }

    lemma {:induction false} RebuildHasFile(files: seq<File>, f: File)
      requires f in files && f.content.Some?
      requires forall g | g in files && g.path == f.path :: g == f
      ensures KeyOf(f.path) in Rebuild(files) && Rebuild(files)[KeyOf(f.path)] == Build(f.content.value)
    {
      var before, last := files[..|files| - 1], files[|files| - 1];
      assert files == before + [last];
      if last != f {
        RebuildHasFile(before, f);
        assert last.path != f.path;
      }
    }

    /** A readable file that is listed once has, after a run, a row with its content, hash and
        chunks. */
    lemma FileIsIndexed(docs: map<Key, Doc<C>>, disk: seq<File>, scope: Option<string>, prune: bool, f: File)
      requires Injective() && Consistent(docs)
      requires f in disk && f.content.Some? && (scope.None? || kbOf(f.path) == scope.value)
      requires forall g | g in disk && g.path == f.path :: g == f
      ensures var after := if prune then PrunedRun(docs, disk, scope) else IndexFiles(docs, Listed(disk, scope));
              var key, content := Key(kbOf(f.path), f.path), f.content.value;
              key in after && after[key] == Doc(hash(content), content, split(content))
    {
      var files := Listed(disk, scope);
      IndexFilesOverlays(docs, files);
      RebuildHasFile(files, f);
    }

    /** A scoped pruning run leaves the other knowledge bases alone, and leaves no row of its own whose
        file is gone. */
    lemma ScopeIsKept(docs: map<Key, Doc<C>>, disk: seq<File>, scope: Option<string>, k: Key)
      requires Injective() && Consistent(docs)
      ensures var after := PrunedRun(docs, disk, scope);
              if scope.Some? && k.kb != scope.value then (k in after <==> k in docs) && (k in docs ==> after[k] == docs[k])
              else k in after ==> exists f :: f in disk && f.path == k.path && kbOf(f.path) == k.kb
    {
      var files := Listed(disk, scope);
      PrunedTable(docs, disk, scope);
      hide IndexFiles, Prune, PrunedRun;
      if (scope.None? || k.kb == scope.value) && k in PrunedRun(docs, disk, scope) {
        var f :| f in files && f.path == k.path;
        assert f in disk;
      }
    }

    /** The report names a path among those it goes through. */
    ghost predicate Reported(r: IndexResult, path: string, indexed: bool, skipped: bool, failed: bool) {
      (path in r.indexed <==> indexed) && (path in r.skipped <==> skipped) && (path in r.failed <==> failed)
    }

    lemma {:induction false} OtherPathsKeep(docs: map<Key, Doc<C>>, files: seq<File>, path: string)
      requires forall g | g in files :: g.path != path
      ensures forall k: Key | k.path == path ::
                (k in IndexFiles(docs, files) <==> k in docs) && (k in docs ==> IndexFiles(docs, files)[k] == docs[k])
      ensures Reported(Reports(docs, files), path, false, false, false)
    {
      if files != [] {
        assert files[|files| - 1] in files;
        OtherPathsKeep(docs, files[..|files| - 1], path);
      }
    }

    /** What the report says of the one file listed at a path: failed when it cannot be read, skipped
        when the table had its very content, indexed otherwise. */
    lemma {:induction false} ReportIsExact(docs: map<Key, Doc<C>>, files: seq<File>, i: nat)
      requires Injective() && Consistent(docs)
      requires i < |files| && forall j | 0 <= j < |files| && j != i :: files[j].path != files[i].path
      ensures var f, key := files[i], Key(kbOf(files[i].path), files[i].path);
              var known := f.content.Some? && key in docs && docs[key].content == f.content.value;
              Reported(Reports(docs, files), f.path, f.content.Some? && !known, known, f.content.None?)
      decreases |files|
    {
      var before, f := files[..|files| - 1], files[i];
      if i == |files| - 1 {
        OtherPathsKeep(docs, before, f.path);
      } else {
        ReportIsExact(docs, before, i);
      }
    }

    lemma RunLeavesFilesUnchanged(docs: map<Key, Doc<C>>, disk: seq<File>, scope: Option<string>)
      requires Injective() && Consistent(docs) && AllReadable(disk)
      ensures forall f | f in Listed(disk, scope) :: f.content.Some? && Unchanged(PrunedRun(docs, disk, scope), f)
    {
      var files := Listed(disk, scope);
      PrunedTable(docs, disk, scope);
      hide PrunedRun, IndexFiles, Prune, Consistent;
      forall f | f in files ensures Unchanged(PrunedRun(docs, disk, scope), f) {
        RebuildHasFile(files, f);
      }
    }

    ghost predicate AllReadable(disk: seq<File>) {
      && (forall f, g | f in disk && g in disk && f.path == g.path :: f == g)
      && (forall f | f in disk :: f.content.Some?)
    }

    lemma PruneTwice(docs: map<Key, Doc<C>>, files: seq<File>, scope: Option<string>)
      ensures Prune(Prune(docs, files, scope), files, scope) == Prune(docs, files, scope)
    {
    }

    /** After any pruning run over readable files, the same run again changes nothing
        and only skips. */
    lemma RunIsIdempotent(docs: map<Key, Doc<C>>, disk: seq<File>, scope: Option<string>)
      requires Injective() && Consistent(docs) && AllReadable(disk)
      ensures PrunedRun(PrunedRun(docs, disk, scope), disk, scope) == PrunedRun(docs, disk, scope)
      ensures var again := Reports(PrunedRun(docs, disk, scope), Listed(disk, scope));
              again.indexed == [] && again.failed == [] && |again.skipped| == |Listed(disk, scope)|
    {
      var files := Listed(disk, scope);
      RunLeavesFilesUnchanged(docs, disk, scope);
      SecondRunSkips(PrunedRun(docs, disk, scope), files);
      PruneTwice(IndexFiles(docs, files), files, scope);
    }
  }

  ghost function Paths(keys: set<Key>): set<string> {
    set k | k in keys :: k.path
  }

  lemma PathsAdd(keys: set<Key>, k: Key)
    ensures Paths(keys + {k}) == Paths(keys) + {k.path}
  {
  }

  class KbIndex<!C(!new)> {
    var docs: map<Key, Doc<C>>

    constructor ()
      ensures docs == map[]
    {
      docs := map[];
    }

    method Reindex(t: Tools<C>, disk: seq<File>, prune: bool, scope: Option<string>) returns (r: IndexResult)
      modifies this
      ensures docs == if prune then t.PrunedRun(old(docs), disk, scope)
                      else t.IndexFiles(old(docs), t.Listed(disk, scope))
      ensures r.(pruned := []) == t.Reports(old(docs), t.Listed(disk, scope))
      ensures forall p :: p in r.pruned <==> p in Paths(t.IndexFiles(old(docs), t.Listed(disk, scope)).Keys - docs.Keys)
    {
      hide Tools<C>.IndexFile, Tools<C>.Report, Tools<C>.Prune, Tools<C>.Listed;
      var files := t.Listed(disk, scope);
      r := IndexResult([], [], [], []);
      for i := 0 to |files|
        invariant docs == t.IndexFiles(old(docs), files[..i])
        invariant r == t.Reports(old(docs), files[..i]) && r.pruned == []
      {
        assert files[..i + 1][..i] == files[..i] && files[..i + 1][i] == files[i];
        r := IndexOne(t, files[i], r);
      }
      assert files[..|files|] == files;
      if prune {
        r := PruneDocs(t, files, scope, r);
      } else {
        assert docs.Keys - docs.Keys == {};
      }
    }

    /** The loop body: hash, skip when unchanged, else replace the row and its chunks. */
    method IndexOne(t: Tools<C>, f: File, r0: IndexResult) returns (r: IndexResult)
      modifies this
      ensures docs == t.IndexFile(old(docs), f)
      ensures r == t.Report(r0, old(docs), f) && r.pruned == r0.pruned
    {
      if f.content.None? {
        return r0.(failed := r0.failed + [f.path]);
      }
      var content := f.content.value;
      var digest, key := t.hash(content), t.KeyOf(f.path);
      if key in docs && docs[key].hash == digest {
        return r0.(skipped := r0.skipped + [f.path]);
      }
      docs := docs[key := Doc(digest, content, t.split(content))];
      return r0.(indexed := r0.indexed + [f.path]);
    }

    method PruneDocs(t: Tools<C>, files: seq<File>, scope: Option<string>, r0: IndexResult) returns (r: IndexResult)
      requires r0.pruned == []
      modifies this
      ensures docs == t.Prune(old(docs), files, scope)
      ensures r.(pruned := []) == r0
      ensures forall p :: p in r.pruned <==> p in Paths(old(docs).Keys - docs.Keys)
    {
      hide Tools<C>.Prune, Tools<C>.Stale;
      r := r0;
      var todo := docs.Keys;
      ghost var removed: set<Key> := {};
      while todo != {}
        invariant todo <= old(docs).Keys && todo !! removed
        invariant removed <= old(docs).Keys && docs == old(docs) - removed
        invariant forall k | k in old(docs) && k !in todo :: k in removed <==> t.Stale(files, scope, k)
        invariant r.(pruned := []) == r0
        invariant forall p :: p in r.pruned <==> p in Paths(removed)
        decreases |todo|
      {
        var k :| k in todo;
        todo := todo - {k};
        if t.Stale(files, scope, k) {
          docs := docs - {k};
          PathsAdd(removed, k);
          removed := removed + {k};
          r := r.(pruned := r.pruned + [k.path]);
        }
      }
      assert removed == old(docs).Keys - docs.Keys;
      t.PruneRemoves(old(docs), files, scope, removed);
    }
  }
}

/** Duplicating a course into a new draft: fresh rows, the same tree. */
module CourseDuplicate {
  import opened Common
  import opened CourseContent
  import opened CourseStore

  // ----- Copies -----

  /** Whatever the blocks of `from` read back as, those of `to` do too. */
  ghost predicate SameBlocks(t: Content, from: nat, t': Content, to: nat) {
    forall blocks :: ReadsBlocks(t, from, blocks) ==> ReadsBlocks(t', to, blocks)
  }

  ghost predicate SameLessons(t: Content, from: nat, t': Content, to: nat) {
    forall lessons :: ReadsLessons(t, from, lessons) ==> ReadsLessons(t', to, lessons)
  }

  ghost predicate SameChapters(t: Content, from: nat, t': Content, to: nat) {
    forall chapters :: ReadsChapters(t, from, chapters) ==> ReadsChapters(t', to, chapters)
  }

  /** The first `n` of the rows listed. */
  function Taken(ids: seq<nat>, n: nat): set<nat>
    requires n <= |ids|
  {
    set i | 0 <= i < n :: ids[i]
  }

  lemma TakenMore(keys: map<nat, real>, ids: seq<nat>, n: nat)
    requires Listing(keys, ids) && n < |ids|
    ensures ids[n] in keys && ids[n] !in Taken(ids, n) && Taken(ids, n + 1) == Taken(ids, n) + {ids[n]}
  {
  }

  lemma TakenAll(keys: map<nat, real>, ids: seq<nat>)
    requires Listing(keys, ids)
    ensures Taken(ids, |ids|) == keys.Keys
  {
    forall k | k in keys ensures k in Taken(ids, |ids|) {
      assert k in ids;
    }
  }

  /** `f` takes the rows with `keys` one to one onto those with `keys'`, sort orders kept. */
  ghost predicate Matches(keys: map<nat, real>, keys': map<nat, real>, f: map<nat, nat>) {
    && f.Keys == keys.Keys
    && (forall k | k in f :: f[k] in keys' && keys'[f[k]] == keys[k])
    && (forall j, k | j in f && k in f && j != k :: f[j] != f[k])
    && keys'.Keys <= f.Values
  }

  function Mapped(f: map<nat, nat>, ids: seq<nat>): seq<nat>
    requires forall i | 0 <= i < |ids| :: ids[i] in f
  {
    seq(|ids|, i requires 0 <= i < |ids| => f[ids[i]])
  }

  lemma MappedListing(keys: map<nat, real>, keys': map<nat, real>, f: map<nat, nat>, ids: seq<nat>)
    requires Matches(keys, keys', f) && Listing(keys, ids)
    ensures Listing(keys', Mapped(f, ids))
  {
    MappedCovers(keys, keys', f, ids);
  }

  lemma MappedCovers(keys: map<nat, real>, keys': map<nat, real>, f: map<nat, nat>, ids: seq<nat>)
    requires Matches(keys, keys', f) && Listing(keys, ids)
    ensures forall k' | k' in keys' :: k' in Mapped(f, ids)
  {
    forall k' | k' in keys' ensures k' in Mapped(f, ids) {
      assert k' in f.Values;
      var k :| k in f && f[k] == k';
      assert k in ids;
      var i :| 0 <= i < |ids| && ids[i] == k;
      assert Mapped(f, ids)[i] == k';
    }
  }

  lemma MatchesMore(keys: map<nat, real>, keys': map<nat, real>, f: map<nat, nat>, k: nat, id: nat, key: real)
    requires Matches(keys, keys', f) && k !in keys && id !in keys'
    ensures Matches(keys[k := key], keys'[id := key], f[k := id])
  {
    var g := f[k := id];
    assert g[k] == id && id in g.Values;
    forall k' | k' in f.Values ensures k' in g.Values {
      var j :| j in f && f[j] == k';
      assert g[j] == k';
    }
  }

  function Restrict(keys: map<nat, real>, ids: set<nat>): map<nat, real> {
    map k | k in keys && k in ids :: keys[k]
  }

  lemma RestrictAll(keys: map<nat, real>)
    ensures Restrict(keys, keys.Keys) == keys
  {
  }

  lemma MatchesNext(keys: map<nat, real>, done: set<nat>, keys': map<nat, real>, f: map<nat, nat>, k: nat, id: nat)
    requires Matches(Restrict(keys, done), keys', f) && k in keys && k !in done && id !in keys'
    ensures Matches(Restrict(keys, done + {k}), keys'[id := keys[k]], f[k := id])
  {
    MatchesMore(Restrict(keys, done), keys', f, k, id, keys[k]);
    assert Restrict(keys, done)[k := keys[k]] == Restrict(keys, done + {k});
  }

  /** The blocks `done` of lesson `from` in `start` have their copies under `to` in `t`. */
  ghost predicate BlocksCopied(start: Content, from: nat, t: Content, to: nat, f: map<nat, nat>, done: set<nat>) {
    && done <= BlockKeys(start, from).Keys
    && Matches(Restrict(BlockKeys(start, from), done), BlockKeys(t, to), f)
    && forall k | k in f :: k in start.blocks && f[k] in t.blocks && BlockOf(t.blocks[f[k]]) == BlockOf(start.blocks[k])
  }

  lemma BlockCopied(start: Content, from: nat, t: Content, t': Content, to: nat, f: map<nat, nat>, done: set<nat>,
                    k: nat, id: nat)
    requires BlocksCopied(start, from, t, to, f, done) && k in BlockKeys(start, from) && k !in done
    requires id !in t.blocks && id in t'.blocks && t' == t.(blocks := t.blocks[id := t'.blocks[id]])
    requires BlockOf(t'.blocks[id]) == BlockOf(start.blocks[k])
    requires BlockKeys(t', to) == BlockKeys(t, to)[id := start.blocks[k].sortOrder]
    ensures BlocksCopied(start, from, t', to, f[k := id], done + {k})
  {
    MatchesNext(BlockKeys(start, from), done, BlockKeys(t, to), f, k, id);
  }

  lemma MappedBlocks(start: Content, from: nat, t: Content, to: nat, f: map<nat, nat>, ids: seq<nat>,
                     blocks: seq<SnapshotBlock>)
    requires Matches(BlockKeys(start, from), BlockKeys(t, to), f)
    requires forall k | k in f ::
               k in start.blocks && f[k] in t.blocks && BlockOf(t.blocks[f[k]]) == BlockOf(start.blocks[k])
    requires Listing(BlockKeys(start, from), ids) && BlocksAt(start, ids, blocks)
    ensures ReadsBlocks(t, to, blocks)
  {
    MappedListing(BlockKeys(start, from), BlockKeys(t, to), f, ids);
    var ids' := Mapped(f, ids);
    forall i | 0 <= i < |ids'| ensures ids'[i] in t.blocks && BlockOf(t.blocks[ids'[i]]) == blocks[i] {
      assert ids'[i] == f[ids[i]];
    }
    assert BlocksAt(t, ids', blocks);
  }

  lemma AllBlocksCopied(start: Content, from: nat, t: Content, to: nat, f: map<nat, nat>)
    requires BlocksCopied(start, from, t, to, f, BlockKeys(start, from).Keys)
    ensures SameBlocks(start, from, t, to)
  {
    var keys := BlockKeys(start, from);
    RestrictAll(keys);
    forall blocks | ReadsBlocks(start, from, blocks) ensures ReadsBlocks(t, to, blocks) {
      var ids :| Listing(keys, ids) && BlocksAt(start, ids, blocks);
      MappedBlocks(start, from, t, to, f, ids, blocks);
    }
  }

  lemma BlockStep(start: Content, from: nat, t: Content, t': Content, to: nat, course: nat, f: map<nat, nat>,
                  done: set<nat>, k: nat, id: nat)
    requires BlocksInserted(start, t, to, course)
    requires BlocksCopied(start, from, t, to, f, done) && k in BlockKeys(start, from) && k !in done
    requires id !in t.blocks && id in t'.blocks && t' == t.(blocks := t.blocks[id := t'.blocks[id]])
    requires t'.blocks[id].lesson == to && t'.blocks[id].course == course
    requires BlockOf(t'.blocks[id]) == BlockOf(start.blocks[k])
    requires BlockKeys(t', to) == BlockKeys(t, to)[id := start.blocks[k].sortOrder]
    ensures BlocksInserted(start, t', to, course) && BlocksCopied(start, from, t', to, f[k := id], done + {k})
  {
    BlocksInsertedMore(start, t, t', to, course, id);
    BlockCopied(start, from, t, t', to, f, done, k, id);
  }

  method CopyBlock(store: Store, k: nat, to: nat, course: nat, author: nat) returns (id: nat)
    requires store.Valid() && to in store.t.lessons && store.t.lessons[to].course == course
    requires k in store.t.blocks
    modifies store
    ensures store.Valid()
    ensures id !in old(store.t).blocks && id in store.t.blocks
    ensures store.t.blocks[id] == old(store.t).blocks[k].(lesson := to, course := course, createdBy := author)
    ensures store.t == old(store.t).(blocks := old(store.t).blocks[id := store.t.blocks[id]])
    ensures BlockKeys(store.t, to) == BlockKeys(old(store.t), to)[id := store.t.blocks[id].sortOrder]
  {
    var b := store.t.blocks[k];
    id := store.InsertBlock(Block(to, course, b.kind, b.content, b.sortOrder, author));
  }

  /** One block more is copied than those of `done`. */
  method CopyNextBlock(store: Store, ghost start: Content, ghost from: nat, to: nat, course: nat, ghost f: map<nat, nat>,
                       ghost done: set<nat>, k: nat, author: nat)
    returns (ghost more: map<nat, nat>)
    requires store.Valid() && to in store.t.lessons && store.t.lessons[to].course == course
    requires BlocksInserted(start, store.t, to, course) && NewBy(start, store.t, author)
    requires BlocksCopied(start, from, store.t, to, f, done) && k in BlockKeys(start, from) && k !in done
    modifies store
    ensures store.Valid()
    ensures BlocksInserted(start, store.t, to, course) && NewBy(start, store.t, author)
    ensures BlocksCopied(start, from, store.t, to, more, done + {k})
  {
    ghost var before := store.t;
    var id := CopyBlock(store, k, to, course, author);
    BlockStep(start, from, before, store.t, to, course, f, done, k, id);
    more := f[k := id];
  }

  lemma NoBlockCopied(start: Content, from: nat, to: nat, course: nat, author: nat)
    requires BlockKeys(start, to) == map[]
    ensures BlocksInserted(start, start, to, course) && NewBy(start, start, author)
    ensures BlocksCopied(start, from, start, to, map[], {})
  {
  }

  /** INSERT ... SELECT: the blocks of `from` are inserted under `to` in no particular order. */
  method CopyBlocks(store: Store, from: nat, to: nat, course: nat, author: nat)
    requires store.Valid() && to in store.t.lessons && store.t.lessons[to].course == course
    requires BlockKeys(store.t, to) == map[]
    modifies store
    ensures store.Valid()
    ensures BlocksInserted(old(store.t), store.t, to, course) && NewBy(old(store.t), store.t, author)
    ensures SameBlocks(old(store.t), from, store.t, to)
  {
    ghost var start := store.t;
    var left := BlockKeys(store.t, from).Keys;
    ghost var done: set<nat> := {};
    ghost var f: map<nat, nat> := map[];
    NoBlockCopied(start, from, to, course, author);
    while left != {}
      invariant store.Valid() && BlocksInserted(start, store.t, to, course) && NewBy(start, store.t, author)
      invariant done !! left && done + left == BlockKeys(start, from).Keys
      invariant BlocksCopied(start, from, store.t, to, f, done)
      decreases left
    {
      var k :| k in left;
      f := CopyNextBlock(store, start, from, to, course, f, done, k, author);
      done := done + {k};
      left := left - {k};
    }
    assert done == BlockKeys(start, from).Keys;
    AllBlocksCopied(start, from, store.t, to, f);
  }

  /** The lessons `done` of chapter `from` in `start` have their copies under `to` in `t`. */
  ghost predicate LessonsCopied(start: Content, from: nat, t: Content, to: nat, f: map<nat, nat>, done: set<nat>) {
    && done <= LessonKeys(start, from).Keys
    && Matches(Restrict(LessonKeys(start, from), done), LessonKeys(t, to), f)
    && forall k | k in f :: LessonCopied(start, k, t, f[k])
  }

  ghost predicate LessonCopied(start: Content, k: nat, t: Content, id: nat) {
    && k in start.lessons && id in t.lessons
    && t.lessons[id].title == start.lessons[k].title && t.lessons[id].sortOrder == start.lessons[k].sortOrder
    && SameBlocks(start, k, t, id)
  }

  lemma CopyStays(start: Content, k: nat, t: Content, t': Content, id: nat)
    requires LessonCopied(start, k, t, id)
    requires id in t'.lessons && t'.lessons[id] == t.lessons[id]
    requires Retained(t, t') && forall i | i in t'.blocks && i !in t.blocks :: t'.blocks[i].lesson != id
    ensures LessonCopied(start, k, t', id)
  {
    forall blocks | ReadsBlocks(start, k, blocks) ensures ReadsBlocks(t', id, blocks) {
      BlocksStay(t, t', id, blocks);
    }
  }

  lemma NextLessonCopied(start: Content, from: nat, t: Content, t1: Content, t2: Content, to: nat, course: nat,
                         f: map<nat, nat>, done: set<nat>, k: nat, id: nat)
    requires Linked(t) && LessonsCopied(start, from, t, to, f, done) && k in LessonKeys(start, from) && k !in done
    requires id !in t.lessons && id in t1.lessons && t1 == t.(lessons := t.lessons[id := t1.lessons[id]])
    requires t1.lessons[id].title == start.lessons[k].title && t1.lessons[id].sortOrder == start.lessons[k].sortOrder
    requires LessonKeys(t1, to) == LessonKeys(t, to)[id := start.lessons[k].sortOrder]
    requires BlocksInserted(t1, t2, id, course) && SameBlocks(start, k, t2, id)
    ensures LessonsCopied(start, from, t2, to, f[k := id], done + {k})
  {
    MatchesNext(LessonKeys(start, from), done, LessonKeys(t, to), f, k, id);
    assert LessonKeys(t2, to) == LessonKeys(t1, to);
    EarlierCopiesStay(start, from, t, t1, t2, to, course, f, done, id);
    assert LessonCopied(start, k, t2, id);
  }

  lemma EarlierCopiesStay(start: Content, from: nat, t: Content, t1: Content, t2: Content, to: nat, course: nat,
                          f: map<nat, nat>, done: set<nat>, id: nat)
    requires LessonsCopied(start, from, t, to, f, done)
    requires id !in t.lessons && id in t1.lessons && t1 == t.(lessons := t.lessons[id := t1.lessons[id]])
    requires BlocksInserted(t1, t2, id, course)
    ensures forall j | j in f :: LessonCopied(start, j, t2, f[j])
  {
    forall j | j in f ensures LessonCopied(start, j, t2, f[j]) {
      assert f[j] in LessonKeys(t, to);
      CopyStays(start, j, t, t2, f[j]);
    }
  }

  lemma AllLessonsCopied(start: Content, from: nat, t: Content, to: nat, f: map<nat, nat>)
    requires LessonsCopied(start, from, t, to, f, LessonKeys(start, from).Keys)
    ensures SameLessons(start, from, t, to)
  {
    var keys := LessonKeys(start, from);
    RestrictAll(keys);
    forall lessons | ReadsLessons(start, from, lessons) ensures ReadsLessons(t, to, lessons) {
      var ids :| Listing(keys, ids) && LessonsAt(start, ids, lessons);
      MappedListing(keys, LessonKeys(t, to), f, ids);
      var ids' := Mapped(f, ids);
      forall i | 0 <= i < |ids'| ensures LessonAt(t, ids'[i], lessons[i]) {
        assert LessonAt(start, ids[i], lessons[i]) && LessonCopied(start, ids[i], t, f[ids[i]]);
      }
      assert LessonsAt(t, ids', lessons);
    }
  }

  lemma LessonStep(start: Content, from: nat, t: Content, t1: Content, t2: Content, to: nat, course: nat,
                   f: map<nat, nat>, done: set<nat>, k: nat, id: nat)
    requires Linked(start) && Linked(t) && LessonsInserted(start, t, to, course)
    requires LessonsCopied(start, from, t, to, f, done) && k in LessonKeys(start, from) && k !in done
    requires id !in t.lessons && id in t1.lessons && t1 == t.(lessons := t.lessons[id := t1.lessons[id]])
    requires t1.lessons[id].chapter == to && t1.lessons[id].course == course
    requires t1.lessons[id].title == start.lessons[k].title && t1.lessons[id].sortOrder == start.lessons[k].sortOrder
    requires LessonKeys(t1, to) == LessonKeys(t, to)[id := start.lessons[k].sortOrder]
    requires BlocksInserted(t1, t2, id, course) && SameBlocks(t1, k, t2, id)
    ensures LessonsInserted(start, t2, to, course) && LessonsCopied(start, from, t2, to, f[k := id], done + {k})
  {
    SameSource(start, t1, t2, k, id);
    NextLessonCopied(start, from, t, t1, t2, to, course, f, done, k, id);
    LessonsInsertedMore(start, t, t1, t2, to, course, id);
  }

  /** One lesson and its blocks; `inserted` is the state between the two. */
  method CopyLesson(store: Store, k: nat, to: nat, course: nat, author: nat) returns (id: nat, ghost inserted: Content)
    requires store.Valid() && to in store.t.chapters && store.t.chapters[to].course == course
    requires k in store.t.lessons
    modifies store
    ensures store.Valid()
    ensures id !in old(store.t).lessons && id in inserted.lessons
    ensures inserted.lessons[id] == Lesson(to, course, old(store.t).lessons[k].title, old(store.t).lessons[k].sortOrder,
                                           author, None)
    ensures inserted == old(store.t).(lessons := old(store.t).lessons[id := inserted.lessons[id]])
    ensures LessonKeys(inserted, to) == LessonKeys(old(store.t), to)[id := inserted.lessons[id].sortOrder]
    ensures BlocksInserted(inserted, store.t, id, course) && SameBlocks(inserted, k, store.t, id)
    ensures NewBy(old(store.t), store.t, author)
  {
    var row := store.t.lessons[k];
    id := store.InsertLesson(Lesson(to, course, row.title, row.sortOrder, author, None));
    inserted := store.t;
    CopyBlocks(store, k, id, course, author);
  }

  /** One lesson more is copied than the first `n`. */
  method CopyNextLesson(store: Store, ghost start: Content, ghost from: nat, to: nat, course: nat,
                        ghost f: map<nat, nat>, ids: seq<nat>, n: nat, author: nat)
    returns (ghost more: map<nat, nat>)
    requires store.Valid() && to in store.t.chapters && store.t.chapters[to].course == course && Linked(start)
    requires LessonsInserted(start, store.t, to, course) && NewBy(start, store.t, author)
    requires Listing(LessonKeys(start, from), ids) && n < |ids|
    requires LessonsCopied(start, from, store.t, to, f, Taken(ids, n))
    modifies store
    ensures store.Valid()
    ensures LessonsInserted(start, store.t, to, course) && NewBy(start, store.t, author)
    ensures LessonsCopied(start, from, store.t, to, more, Taken(ids, n + 1))
  {
    var k := ids[n];
    TakenMore(LessonKeys(start, from), ids, n);
    ghost var before := store.t;
    ghost var inserted;
    var id;
    id, inserted := CopyLesson(store, k, to, course, author);
    LessonStep(start, from, before, inserted, store.t, to, course, f, Taken(ids, n), k, id);
    NewByLesson(start, before, inserted, store.t, author, id, course);
    more := f[k := id];
  }

  lemma NewByLesson(start: Content, t: Content, t1: Content, t2: Content, author: nat, id: nat, course: nat)
    requires NewBy(start, t, author) && NewBy(t, t2, author)
    requires id !in t.lessons && id in t1.lessons && t1 == t.(lessons := t.lessons[id := t1.lessons[id]])
    requires BlocksInserted(t1, t2, id, course)
    ensures NewBy(start, t2, author)
  {
    NewByBoth(start, t, t2, author);
  }

  lemma NoLessonCopied(start: Content, from: nat, to: nat, course: nat, author: nat)
    requires LessonKeys(start, to) == map[]
    ensures LessonsInserted(start, start, to, course) && NewBy(start, start, author)
    ensures LessonsCopied(start, from, start, to, map[], {})
  {
  }

  /** The lessons of `from`, in the order the database lists them, with their blocks. */
  method CopyLessons(store: Store, from: nat, to: nat, course: nat, author: nat)
    requires store.Valid() && to in store.t.chapters && store.t.chapters[to].course == course
    requires LessonKeys(store.t, to) == map[]
    modifies store
    ensures store.Valid()
    ensures LessonsInserted(old(store.t), store.t, to, course) && NewBy(old(store.t), store.t, author)
    ensures SameLessons(old(store.t), from, store.t, to)
  {
    ghost var start := store.t;
    var ids := store.OrderBySortOrder(LessonKeys(store.t, from));
    ghost var f: map<nat, nat> := map[];
    NoLessonCopied(start, from, to, course, author);
    assert Taken(ids, 0) == {};
    for n := 0 to |ids|
      invariant store.Valid() && LessonsInserted(start, store.t, to, course) && NewBy(start, store.t, author)
      invariant LessonsCopied(start, from, store.t, to, f, Taken(ids, n))
    {
      f := CopyNextLesson(store, start, from, to, course, f, ids, n, author);
    }
    TakenAll(LessonKeys(start, from), ids);
    AllLessonsCopied(start, from, store.t, to, f);
  }

  /** The blocks of a source lesson read the same as when the copying began. */
  lemma SameSource(start: Content, inserted: Content, t: Content, k: nat, id: nat)
    requires k in start.lessons && SameBlocks(inserted, k, t, id)
    requires forall i | i in start.blocks :: i in inserted.blocks && inserted.blocks[i] == start.blocks[i]
    requires forall i | i in inserted.blocks && i !in start.blocks :: inserted.blocks[i].lesson !in start.lessons
    ensures SameBlocks(start, k, t, id)
  {
    forall blocks | ReadsBlocks(start, k, blocks) ensures ReadsBlocks(t, id, blocks) {
      assert BlockKeys(inserted, k) == BlockKeys(start, k);
      BlocksReadSame(start, inserted, k, blocks);
    }
  }

  lemma BlocksReadSame(t: Content, t': Content, lesson: nat, blocks: seq<SnapshotBlock>)
    requires BlockKeys(t', lesson) == BlockKeys(t, lesson) && ReadsBlocks(t, lesson, blocks)
    requires forall i | i in t.blocks :: i in t'.blocks && t'.blocks[i] == t.blocks[i]
    ensures ReadsBlocks(t', lesson, blocks)
  {
    var ids :| Listing(BlockKeys(t, lesson), ids) && BlocksAt(t, ids, blocks);
    assert BlocksAt(t', ids, blocks);
  }

  // ----- Chapters -----

  ghost predicate ChapterCopied(start: Content, k: nat, t: Content, id: nat) {
    && k in start.chapters && id in t.chapters
    && t.chapters[id].title == start.chapters[k].title && t.chapters[id].sortOrder == start.chapters[k].sortOrder
    && SameLessons(start, k, t, id)
  }

  /** The chapters `done` of course `from` in `start` have their copies under `to` in `t`. */
  ghost predicate ChaptersCopied(start: Content, from: nat, t: Content, to: nat, f: map<nat, nat>, done: set<nat>) {
    && done <= ChapterKeys(start, from).Keys
    && Matches(Restrict(ChapterKeys(start, from), done), ChapterKeys(t, to), f)
    && forall k | k in f :: ChapterCopied(start, k, t, f[k])
  }

  lemma EarlierChaptersStay(start: Content, from: nat, t: Content, t1: Content, t2: Content, to: nat, course: nat,
                            f: map<nat, nat>, done: set<nat>, id: nat)
    requires Linked(t) && ChaptersCopied(start, from, t, to, f, done)
    requires id !in t.chapters && id in t1.chapters && t1 == t.(chapters := t.chapters[id := t1.chapters[id]])
    requires LessonsInserted(t1, t2, id, course)
    ensures forall j | j in f :: ChapterCopied(start, j, t2, f[j])
  {
    forall j | j in f ensures ChapterCopied(start, j, t2, f[j]) {
      assert f[j] in ChapterKeys(t, to) && ChapterCopied(start, j, t, f[j]);
      forall lessons | ReadsLessons(start, j, lessons) ensures ReadsLessons(t2, f[j], lessons) {
        LessonsStay(t, t2, f[j], lessons);
      }
    }
  }

  lemma NextChapterCopied(start: Content, from: nat, t: Content, t1: Content, t2: Content, to: nat, f: map<nat, nat>,
                          done: set<nat>, k: nat, id: nat)
    requires Linked(t) && ChaptersCopied(start, from, t, to, f, done) && k in ChapterKeys(start, from) && k !in done
    requires id !in t.chapters && id in t1.chapters && t1 == t.(chapters := t.chapters[id := t1.chapters[id]])
    requires t1.chapters[id].title == start.chapters[k].title && t1.chapters[id].sortOrder == start.chapters[k].sortOrder
    requires ChapterKeys(t1, to) == ChapterKeys(t, to)[id := start.chapters[k].sortOrder]
    requires LessonsInserted(t1, t2, id, to) && SameLessons(start, k, t2, id)
    ensures ChaptersCopied(start, from, t2, to, f[k := id], done + {k})
  {
    MatchesNext(ChapterKeys(start, from), done, ChapterKeys(t, to), f, k, id);
    assert ChapterKeys(t2, to) == ChapterKeys(t1, to);
    EarlierChaptersStay(start, from, t, t1, t2, to, to, f, done, id);
    assert ChapterCopied(start, k, t2, id);
  }

  lemma AllChaptersCopied(start: Content, from: nat, t: Content, to: nat, f: map<nat, nat>, chapters: seq<SnapshotChapter>)
    requires ChaptersCopied(start, from, t, to, f, ChapterKeys(start, from).Keys)
    requires ReadsChapters(start, from, chapters)
    ensures ReadsChapters(t, to, chapters)
  {
    var keys := ChapterKeys(start, from);
    RestrictAll(keys);
    var ids :| Listing(keys, ids) && ChaptersAt(start, ids, chapters);
    MappedListing(keys, ChapterKeys(t, to), f, ids);
    MappedChapters(start, t, f, ids, chapters);
  }

  lemma AllCopied(start: Content, from: nat, t: Content, to: nat, f: map<nat, nat>)
    requires ChaptersCopied(start, from, t, to, f, ChapterKeys(start, from).Keys)
    ensures SameChapters(start, from, t, to)
  {
    forall chapters | ReadsChapters(start, from, chapters) ensures ReadsChapters(t, to, chapters) {
      AllChaptersCopied(start, from, t, to, f, chapters);
    }
  }

  lemma MappedChapters(start: Content, t: Content, f: map<nat, nat>, ids: seq<nat>, chapters: seq<SnapshotChapter>)
    requires forall i | 0 <= i < |ids| :: ids[i] in f
    requires forall k | k in f :: ChapterCopied(start, k, t, f[k])
    requires ChaptersAt(start, ids, chapters)
    ensures ChaptersAt(t, Mapped(f, ids), chapters)
  {
    var ids' := Mapped(f, ids);
    forall i | 0 <= i < |ids'| ensures ChapterAt(t, ids'[i], chapters[i]) {
      CopyReads(start, ids[i], t, ids'[i], chapters[i]);
    }
  }

  lemma CopyReads(start: Content, k: nat, t: Content, id: nat, chapter: SnapshotChapter)
    requires ChapterCopied(start, k, t, id) && ChapterAt(start, k, chapter)
    ensures ChapterAt(t, id, chapter)
  {
  }

  /** Only rows of `course` were inserted, and none of them hangs off a row that was there. */
  ghost predicate CourseInserted(t: Content, t': Content, course: nat) {
    && Grown(t, t', course) && NoNewBlocks(t, t')
    && forall i | i in t'.lessons && i !in t.lessons :: t'.lessons[i].chapter !in t.chapters
  }

  lemma CourseInsertedMore(start: Content, t: Content, t1: Content, t2: Content, course: nat, id: nat)
    requires CourseInserted(start, t, course)
    requires id !in t.chapters && id in t1.chapters && t1 == t.(chapters := t.chapters[id := t1.chapters[id]])
    requires t1.chapters[id].course == course && LessonsInserted(t1, t2, id, course)
    ensures CourseInserted(start, t2, course)
  {
  }

  /** The lessons of a source chapter read the same as when the copying began. */
  lemma SameSourceChapter(start: Content, t: Content, inserted: Content, t': Content, course: nat, k: nat, id: nat)
    requires CourseInserted(start, t, course) && k in start.chapters
    requires inserted == t.(chapters := inserted.chapters) && Retained(t, inserted)
    requires SameLessons(inserted, k, t', id)
    ensures SameLessons(start, k, t', id)
  {
    forall lessons | ReadsLessons(start, k, lessons) ensures ReadsLessons(t', id, lessons) {
      LessonsStay(start, inserted, k, lessons);
    }
  }

  lemma ChapterStep(start: Content, from: nat, t: Content, t1: Content, t2: Content, to: nat, f: map<nat, nat>,
                    done: set<nat>, k: nat, id: nat)
    requires Linked(t) && CourseInserted(start, t, to)
    requires ChaptersCopied(start, from, t, to, f, done) && k in ChapterKeys(start, from) && k !in done
    requires id !in t.chapters && id in t1.chapters && t1 == t.(chapters := t.chapters[id := t1.chapters[id]])
    requires t1.chapters[id].course == to
    requires t1.chapters[id].title == start.chapters[k].title && t1.chapters[id].sortOrder == start.chapters[k].sortOrder
    requires ChapterKeys(t1, to) == ChapterKeys(t, to)[id := start.chapters[k].sortOrder]
    requires LessonsInserted(t1, t2, id, to) && SameLessons(t1, k, t2, id)
    ensures CourseInserted(start, t2, to) && ChaptersCopied(start, from, t2, to, f[k := id], done + {k})
  {
    SameSourceChapter(start, t, t1, t2, to, k, id);
    NextChapterCopied(start, from, t, t1, t2, to, f, done, k, id);
    CourseInsertedMore(start, t, t1, t2, to, id);
  }

  method CopyChapter(store: Store, k: nat, to: nat, author: nat) returns (id: nat, ghost inserted: Content)
    requires store.Valid() && to in store.t.courses && k in store.t.chapters
    modifies store
    ensures store.Valid()
    ensures id !in old(store.t).chapters && id in inserted.chapters
    ensures inserted.chapters[id] == Chapter(to, old(store.t).chapters[k].title, old(store.t).chapters[k].sortOrder, author)
    ensures inserted == old(store.t).(chapters := old(store.t).chapters[id := inserted.chapters[id]])
    ensures ChapterKeys(inserted, to) == ChapterKeys(old(store.t), to)[id := inserted.chapters[id].sortOrder]
    ensures LessonsInserted(inserted, store.t, id, to) && SameLessons(inserted, k, store.t, id)
    ensures NewBy(old(store.t), store.t, author)
  {
    var row := store.t.chapters[k];
    id := store.InsertChapter(Chapter(to, row.title, row.sortOrder, author));
    inserted := store.t;
    CopyLessons(store, k, id, to, author);
  }

  /** One chapter more is copied than the first `n`. */
  method CopyNextChapter(store: Store, ghost start: Content, ghost from: nat, to: nat, ghost f: map<nat, nat>,
                         ids: seq<nat>, n: nat, author: nat)
    returns (ghost more: map<nat, nat>)
    requires store.Valid() && to in store.t.courses
    requires CourseInserted(start, store.t, to) && NewBy(start, store.t, author)
    requires Listing(ChapterKeys(start, from), ids) && n < |ids|
    requires ChaptersCopied(start, from, store.t, to, f, Taken(ids, n))
    modifies store
    ensures store.Valid()
    ensures CourseInserted(start, store.t, to) && NewBy(start, store.t, author)
    ensures ChaptersCopied(start, from, store.t, to, more, Taken(ids, n + 1))
  {
    var k := ids[n];
    TakenMore(ChapterKeys(start, from), ids, n);
    ghost var before := store.t;
    ghost var inserted;
    var id;
    id, inserted := CopyChapter(store, k, to, author);
    ChapterStep(start, from, before, inserted, store.t, to, f, Taken(ids, n), k, id);
    NewByChapter(start, before, inserted, store.t, author, id, to);
    more := f[k := id];
  }

  lemma NewByChapter(start: Content, t: Content, t1: Content, t2: Content, author: nat, id: nat, course: nat)
    requires NewBy(start, t, author) && NewBy(t, t2, author)
    requires id !in t.chapters && id in t1.chapters && t1 == t.(chapters := t.chapters[id := t1.chapters[id]])
    requires LessonsInserted(t1, t2, id, course)
    ensures NewBy(start, t2, author)
  {
    NewByBoth(start, t, t2, author);
  }

  lemma NoneCopied(start: Content, from: nat, to: nat, author: nat)
    requires ChapterKeys(start, to) == map[]
    ensures CourseInserted(start, start, to) && NewBy(start, start, author)
    ensures ChaptersCopied(start, from, start, to, map[], {})
  {
  }

  method CopyChapters(store: Store, from: nat, to: nat, author: nat)
    requires store.Valid() && to in store.t.courses && ChapterKeys(store.t, to) == map[]
    modifies store
    ensures store.Valid()
    ensures CourseInserted(old(store.t), store.t, to) && NewBy(old(store.t), store.t, author)
    ensures SameChapters(old(store.t), from, store.t, to)
  {
    ghost var start := store.t;
    var ids := store.OrderBySortOrder(ChapterKeys(store.t, from));
    ghost var f: map<nat, nat> := map[];
    NoneCopied(start, from, to, author);
    assert Taken(ids, 0) == {};
    for n := 0 to |ids|
      invariant store.Valid() && CourseInserted(start, store.t, to) && NewBy(start, store.t, author)
      invariant ChaptersCopied(start, from, store.t, to, f, Taken(ids, n))
    {
      f := CopyNextChapter(store, start, from, to, f, ids, n, author);
    }
    TakenAll(ChapterKeys(start, from), ids);
    AllCopied(start, from, store.t, to, f);
  }

  /** A title is marked as a copy's. */
  function CopyOf(course: Course, author: nat): Course {
    Course(course.org, course.title + " (copy)", course.description, course.cover, course.category, "draft", author)
  }

  /**
   * A new draft whose tree is the source's, title apart. All its rows are new,
   * and every row there was, the source's included, stays as it was.
   */
  method Duplicate(store: Store, source: nat, author: nat) returns (copy: Option<nat>)
    requires store.Valid()
    modifies store
    ensures store.Valid()
    ensures copy.None? <==> source !in old(store.t).courses
    ensures copy.None? ==> store.t == old(store.t)
    ensures copy.Some? ==>
      var was, now, c := old(store.t), store.t, copy.value;
      && c !in was.courses && now.courses == was.courses[c := CopyOf(was.courses[source], author)]
      && (var from, to := was.courses[source], now.courses[c];
          && to.title == from.title + " (copy)" && to.description == from.description && to.org == from.org
          && to.cover == from.cover && to.category == from.category && to.status == "draft" && to.createdBy == author)
      && now.versions == was.versions
      && (forall s :: Reads(was, source, s) ==> Reads(now, c, s.(title := s.title + " (copy)")))
      && ShowsAll(was, source, now, c) && ShowsAll(now, c, was, source)
      && Retained(was, now) && NewBy(was, now, author)
      && OthersUntouched(was, now, c)
      && (forall i | i in now.chapters && now.chapters[i].course == c :: i !in was.chapters)
      && (forall i | i in now.lessons && now.lessons[i].course == c :: i !in was.lessons)
      && (forall i | i in now.blocks && now.blocks[i].course == c :: i !in was.blocks)
  {
    if source !in store.t.courses {
      return None;
    }
    ghost var start := store.t;
    var c := store.InsertCourse(CopyOf(store.t.courses[source], author));
    ghost var created := store.t;
    CopyChapters(store, source, c, author);
    copy := Some(c);
    forall s | Reads(start, source, s) ensures Reads(store.t, c, s.(title := s.title + " (copy)")) {
      ReadsRowsOnly(start, created, source, s.chapters);
    }
    GrownUntouched(created, store.t, c);
    RowsUntouched(start, created, c);
    DuplicateShows(start, created, store.t, source, c);
  }

  lemma DuplicateShows(t: Content, created: Content, t': Content, source: nat, c: nat)
    requires created == t.(courses := created.courses) && SameChapters(created, source, t', c)
    ensures ShowsAll(t, source, t', c) && ShowsAll(t', c, t, source)
  {
    var chapters := SomeTree(t, source);
    ReadsRowsOnly(t, created, source, chapters);
    SameTreeShows(t, source, t', c, chapters);
  }
}

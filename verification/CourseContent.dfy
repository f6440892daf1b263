/**
 * Course content: the flat tables with their foreign keys, the nested tree a
 * snapshot stores, and what it means that a tree is what the tables read back
 * as. ORDER BY sort_order leaves the order of ties open, so reading is a
 * relation.
 */
module CourseContent {
  import opened Common

  datatype Course = Course(org: nat, title: string, description: string, cover: Option<string>, category: Option<nat>,
                           status: string, createdBy: nat)
  datatype Chapter = Chapter(course: nat, title: string, sortOrder: real, createdBy: nat)
  datatype Lesson = Lesson(chapter: nat, course: nat, title: string, sortOrder: real, createdBy: nat,
                           watchThreshold: Option<int>)
  datatype Block = Block(lesson: nat, course: nat, kind: string, content: string, sortOrder: real, createdBy: nat)

  datatype SnapshotBlock = SnapshotBlock(kind: string, content: string, sortOrder: real)
  datatype SnapshotLesson = SnapshotLesson(title: string, sortOrder: real, blocks: seq<SnapshotBlock>)
  datatype SnapshotChapter = SnapshotChapter(title: string, sortOrder: real, lessons: seq<SnapshotLesson>)
  datatype CourseSnapshot = CourseSnapshot(title: string, description: string, chapters: seq<SnapshotChapter>)

  datatype Version = Version(course: nat, number: nat, snapshot: CourseSnapshot, createdBy: nat)

  /** Content rows are kept by id; a version's id is its position. */
  datatype Content = Content(courses: map<nat, Course>, chapters: map<nat, Chapter>, lessons: map<nat, Lesson>,
                             blocks: map<nat, Block>, versions: seq<Version>)

  // ----- Listings -----

  function ChapterKeys(t: Content, course: nat): map<nat, real> {
    map i | i in t.chapters && t.chapters[i].course == course :: t.chapters[i].sortOrder
  }

  function LessonKeys(t: Content, chapter: nat): map<nat, real> {
    map i | i in t.lessons && t.lessons[i].chapter == chapter :: t.lessons[i].sortOrder
  }

  function BlockKeys(t: Content, lesson: nat): map<nat, real> {
    map i | i in t.blocks && t.blocks[i].lesson == lesson :: t.blocks[i].sortOrder
  }

  /** An order in which ORDER BY may return the rows: each row once, sort orders never decreasing. */
  ghost predicate Listing(keys: map<nat, real>, ids: seq<nat>) {
    && (forall i | 0 <= i < |ids| :: ids[i] in keys)
    && (forall k | k in keys :: k in ids)
    && (forall i, j | 0 <= i < j < |ids| :: ids[i] != ids[j] && keys[ids[i]] <= keys[ids[j]])
  }

  /** A row appended with the greatest sort order comes last. */
  lemma ListingMore(keys: map<nat, real>, ids: seq<nat>, id: nat, key: real)
    requires Listing(keys, ids) && id !in keys
    requires forall i | 0 <= i < |ids| :: keys[ids[i]] <= key
    ensures Listing(keys[id := key], ids + [id])
  {
    var keys', ids' := keys[id := key], ids + [id];
    forall k | k in keys' ensures k in ids' {
      if k == id {
        assert ids'[|ids|] == id;
      } else {
        assert k in ids;
      }
    }
  }

  lemma ListingFirst(keys: map<nat, real>, a: seq<nat>, b: seq<nat>)
    requires Listing(keys, a) && Listing(keys, b) && a != []
    requires forall i, j | 0 <= i < j < |a| :: keys[a[i]] < keys[a[j]]
    ensures b != [] && b[0] == a[0]
  {
    assert a[0] in b;
    var i :| 0 <= i < |b| && b[i] == a[0];
    assert b[0] in a;
    var j :| 0 <= j < |a| && a[j] == b[0];
  }

  /** Only a listing of no rows is empty. */
  lemma ListingEmptyIff(keys: map<nat, real>, ids: seq<nat>)
    requires Listing(keys, ids)
    ensures ids == [] <==> keys == map[]
  {
    if ids != [] {
      assert ids[0] in keys;
    }
  }

  /** With distinct sort orders there is only one. */
  lemma {:induction false} ListingUnique(keys: map<nat, real>, a: seq<nat>, b: seq<nat>)
    requires Listing(keys, a) && Listing(keys, b)
    requires forall i, j | 0 <= i < j < |a| :: keys[a[i]] < keys[a[j]]
    ensures a == b
  {
    if a == [] {
      ListingEmptyIff(keys, a);
      ListingEmptyIff(keys, b);
    } else {
      ListingFirst(keys, a, b);
      ListingTail(keys, a);
      ListingTail(keys, b);
      TailRises(keys, a);
      ListingUnique(keys - {a[0]}, a[1..], b[1..]);
      SameHeadTail(a, b);
    }
  }

  lemma SameHeadTail(a: seq<nat>, b: seq<nat>)
    requires a != [] && b != [] && a[0] == b[0] && a[1..] == b[1..]
    ensures a == b
  {
    assert a == [a[0]] + a[1..] && b == [b[0]] + b[1..];
  }

  lemma TailRises(keys: map<nat, real>, ids: seq<nat>)
    requires Listing(keys, ids) && ids != [] && forall i, j | 0 <= i < j < |ids| :: keys[ids[i]] < keys[ids[j]]
    ensures
      var rest, tail := keys - {ids[0]}, ids[1..];
      && (forall i | 0 <= i < |tail| :: tail[i] in rest)
      && forall i, j | 0 <= i < j < |tail| :: rest[tail[i]] < rest[tail[j]]
  {
  }

  lemma ListingTail(keys: map<nat, real>, ids: seq<nat>)
    requires Listing(keys, ids) && ids != []
    ensures Listing(keys - {ids[0]}, ids[1..])
  {
    var rest := keys - {ids[0]};
    forall k | k in rest ensures k in ids[1..] {
      var i :| 0 <= i < |ids| && ids[i] == k;
      assert ids[1..][i - 1] == k;
    }
  }

  // ----- Reading a tree -----

  function BlockOf(b: Block): SnapshotBlock {
    SnapshotBlock(b.kind, b.content, b.sortOrder)
  }

  ghost predicate BlocksAt(t: Content, ids: seq<nat>, blocks: seq<SnapshotBlock>) {
    && |ids| == |blocks|
    && forall i | 0 <= i < |ids| :: ids[i] in t.blocks && BlockOf(t.blocks[ids[i]]) == blocks[i]
  }

  ghost predicate ReadsBlocks(t: Content, lesson: nat, blocks: seq<SnapshotBlock>) {
    exists ids :: Listing(BlockKeys(t, lesson), ids) && BlocksAt(t, ids, blocks)
  }

  ghost predicate LessonAt(t: Content, id: nat, lesson: SnapshotLesson) {
    && id in t.lessons && t.lessons[id].title == lesson.title && t.lessons[id].sortOrder == lesson.sortOrder
    && ReadsBlocks(t, id, lesson.blocks)
  }

  ghost predicate LessonsAt(t: Content, ids: seq<nat>, lessons: seq<SnapshotLesson>) {
    |ids| == |lessons| && forall i | 0 <= i < |ids| :: LessonAt(t, ids[i], lessons[i])
  }

  ghost predicate ReadsLessons(t: Content, chapter: nat, lessons: seq<SnapshotLesson>) {
    exists ids :: Listing(LessonKeys(t, chapter), ids) && LessonsAt(t, ids, lessons)
  }

  ghost predicate ChapterAt(t: Content, id: nat, chapter: SnapshotChapter) {
    && id in t.chapters && t.chapters[id].title == chapter.title && t.chapters[id].sortOrder == chapter.sortOrder
    && ReadsLessons(t, id, chapter.lessons)
  }

  ghost predicate ChaptersAt(t: Content, ids: seq<nat>, chapters: seq<SnapshotChapter>) {
    |ids| == |chapters| && forall i | 0 <= i < |ids| :: ChapterAt(t, ids[i], chapters[i])
  }

  ghost predicate ReadsChapters(t: Content, course: nat, chapters: seq<SnapshotChapter>) {
    exists ids :: Listing(ChapterKeys(t, course), ids) && ChaptersAt(t, ids, chapters)
  }

  /** The live rows of `course` read back as `s`. */
  ghost predicate Reads(t: Content, course: nat, s: CourseSnapshot) {
    && course in t.courses
    && t.courses[course].title == s.title && t.courses[course].description == s.description
    && ReadsChapters(t, course, s.chapters)
  }

  // ----- What a tree holds of the rows -----

  /** Block row `b` is in a lesson of a chapter of the course. */
  predicate BlockOfCourse(t: Content, course: nat, b: nat) {
    && b in t.blocks && t.blocks[b].lesson in t.lessons
    && t.lessons[t.blocks[b].lesson].chapter in t.chapters
    && t.chapters[t.lessons[t.blocks[b].lesson].chapter].course == course
  }

  /** What learners see of a block row: its columns, and the titles and places of its lesson and chapter. */
  datatype Shown = Shown(chapter: string, chapterOrder: real, lesson: string, lessonOrder: real, kind: string,
                         content: string, order: real)

  function ShownOf(t: Content, course: nat, b: nat): Shown
    requires BlockOfCourse(t, course, b)
  {
    var block := t.blocks[b];
    var lesson := t.lessons[block.lesson];
    var chapter := t.chapters[lesson.chapter];
    Shown(chapter.title, chapter.sortOrder, lesson.title, lesson.sortOrder, block.kind, block.content, block.sortOrder)
  }

  ghost predicate Holds(chapters: seq<SnapshotChapter>, i: nat, j: nat, k: nat, x: Shown) {
    && i < |chapters| && j < |chapters[i].lessons| && k < |chapters[i].lessons[j].blocks|
    && var chapter, lesson, block := chapters[i], chapters[i].lessons[j], chapters[i].lessons[j].blocks[k];
    && chapter.title == x.chapter && chapter.sortOrder == x.chapterOrder
    && lesson.title == x.lesson && lesson.sortOrder == x.lessonOrder
    && block.kind == x.kind && block.content == x.content && block.sortOrder == x.order
  }

  lemma RowIsHeld(t: Content, course: nat, chapters: seq<SnapshotChapter>, b: nat) returns (i: nat, j: nat, k: nat)
    requires ReadsChapters(t, course, chapters) && BlockOfCourse(t, course, b)
    ensures Holds(chapters, i, j, k, ShownOf(t, course, b))
  {
    var l := t.blocks[b].lesson;
    var c := t.lessons[l].chapter;
    var ids :| Listing(ChapterKeys(t, course), ids) && ChaptersAt(t, ids, chapters);
    i := At(ChapterKeys(t, course), ids, c);
    assert ChapterAt(t, c, chapters[i]);
    var ids1 :| Listing(LessonKeys(t, c), ids1) && LessonsAt(t, ids1, chapters[i].lessons);
    j := At(LessonKeys(t, c), ids1, l);
    assert LessonAt(t, l, chapters[i].lessons[j]);
    var ids2 :| Listing(BlockKeys(t, l), ids2) && BlocksAt(t, ids2, chapters[i].lessons[j].blocks);
    k := At(BlockKeys(t, l), ids2, b);
  }

  lemma At(keys: map<nat, real>, ids: seq<nat>, id: nat) returns (i: nat)
    requires Listing(keys, ids) && id in keys
    ensures i < |ids| && ids[i] == id
  {
    assert id in ids;
    i :| 0 <= i < |ids| && ids[i] == id;
  }

  lemma HeldIsRow(t: Content, course: nat, chapters: seq<SnapshotChapter>, i: nat, j: nat, k: nat, x: Shown)
    returns (b: nat)
    requires ReadsChapters(t, course, chapters) && Holds(chapters, i, j, k, x)
    ensures BlockOfCourse(t, course, b) && ShownOf(t, course, b) == x
  {
    var ids :| Listing(ChapterKeys(t, course), ids) && ChaptersAt(t, ids, chapters);
    assert ChapterAt(t, ids[i], chapters[i]) && ids[i] in ChapterKeys(t, course);
    var ids1 :| Listing(LessonKeys(t, ids[i]), ids1) && LessonsAt(t, ids1, chapters[i].lessons);
    assert LessonAt(t, ids1[j], chapters[i].lessons[j]) && ids1[j] in LessonKeys(t, ids[i]);
    var ids2 :| Listing(BlockKeys(t, ids1[j]), ids2) && BlocksAt(t, ids2, chapters[i].lessons[j].blocks);
    b := ids2[k];
    assert b in BlockKeys(t, ids1[j]);
  }

  /** So where two courses read back as one tree, whatever block one shows the other shows too, content and place. */
  lemma SameTreeSameBlocks(t: Content, from: nat, t': Content, to: nat, chapters: seq<SnapshotChapter>, b: nat)
    returns (b': nat)
    requires ReadsChapters(t, from, chapters) && ReadsChapters(t', to, chapters) && BlockOfCourse(t, from, b)
    ensures BlockOfCourse(t', to, b') && ShownOf(t', to, b') == ShownOf(t, from, b)
  {
    var i, j, k := RowIsHeld(t, from, chapters, b);
    b' := HeldIsRow(t', to, chapters, i, j, k, ShownOf(t, from, b));
  }

  /** Every block the course `from` shows in `t`, the course `to` shows in `t'`. */
  ghost predicate ShowsAll(t: Content, from: nat, t': Content, to: nat) {
    forall b | BlockOfCourse(t, from, b) ::
      exists b' :: BlockOfCourse(t', to, b') && ShownOf(t', to, b') == ShownOf(t, from, b)
  }

  lemma SameTreeShows(t: Content, from: nat, t': Content, to: nat, chapters: seq<SnapshotChapter>)
    requires ReadsChapters(t, from, chapters) && ReadsChapters(t', to, chapters)
    ensures ShowsAll(t, from, t', to) && ShowsAll(t', to, t, from)
  {
    forall b | BlockOfCourse(t, from, b)
      ensures exists b' :: BlockOfCourse(t', to, b') && ShownOf(t', to, b') == ShownOf(t, from, b)
    {
      var b' := SameTreeSameBlocks(t, from, t', to, chapters, b);
    }
    forall b | BlockOfCourse(t', to, b)
      ensures exists b' :: BlockOfCourse(t, from, b') && ShownOf(t, from, b') == ShownOf(t', to, b)
    {
      var b' := SameTreeSameBlocks(t', to, t, from, chapters, b);
    }
  }

  // ----- Every course reads back as some tree -----

  lemma {:induction false} GreatestKey(keys: map<nat, real>, ids: set<nat>) returns (m: nat)
    requires ids != {} && ids <= keys.Keys
    ensures m in ids && forall k | k in ids :: keys[k] <= keys[m]
    decreases ids
  {
    m :| m in ids;
    var rest := ids - {m};
    if rest == {} {
      assert ids == {m};
    } else {
      var n := GreatestKey(keys, rest);
      if keys[m] < keys[n] {
        m := n;
      }
    }
  }

  lemma {:induction false} SomeListing(keys: map<nat, real>) returns (ids: seq<nat>)
    ensures Listing(keys, ids)
    decreases keys.Keys
  {
    if keys.Keys == {} {
      ids := [];
    } else {
      var m := GreatestKey(keys, keys.Keys);
      var rest := keys - {m};
      ids := SomeListing(rest);
      ListingMore(rest, ids, m, keys[m]);
      assert rest[m := keys[m]] == keys;
      ids := ids + [m];
    }
  }

  lemma SomeBlocks(t: Content, lesson: nat) returns (blocks: seq<SnapshotBlock>)
    ensures ReadsBlocks(t, lesson, blocks)
  {
    var ids := SomeListing(BlockKeys(t, lesson));
    blocks := seq(|ids|, i requires 0 <= i < |ids| => BlockOf(t.blocks[ids[i]]));
    assert BlocksAt(t, ids, blocks);
  }

  lemma {:induction false} LessonsOfIds(t: Content, ids: seq<nat>) returns (lessons: seq<SnapshotLesson>)
    requires forall i | 0 <= i < |ids| :: ids[i] in t.lessons
    ensures LessonsAt(t, ids, lessons)
  {
    if ids == [] {
      lessons := [];
    } else {
      var n := |ids| - 1;
      lessons := LessonsOfIds(t, ids[..n]);
      var blocks := SomeBlocks(t, ids[n]);
      var last := SnapshotLesson(t.lessons[ids[n]].title, t.lessons[ids[n]].sortOrder, blocks);
      assert LessonAt(t, ids[n], last);
      forall i | 0 <= i < n ensures LessonAt(t, ids[i], lessons[i]) {
        assert ids[..n][i] == ids[i];
      }
      lessons := lessons + [last];
    }
  }

  lemma {:induction false} ChaptersOfIds(t: Content, ids: seq<nat>) returns (chapters: seq<SnapshotChapter>)
    requires forall i | 0 <= i < |ids| :: ids[i] in t.chapters
    ensures ChaptersAt(t, ids, chapters)
  {
    if ids == [] {
      chapters := [];
    } else {
      var n := |ids| - 1;
      chapters := ChaptersOfIds(t, ids[..n]);
      var inner := SomeListing(LessonKeys(t, ids[n]));
      var lessons := LessonsOfIds(t, inner);
      var last := SnapshotChapter(t.chapters[ids[n]].title, t.chapters[ids[n]].sortOrder, lessons);
      assert ChapterAt(t, ids[n], last);
      forall i | 0 <= i < n ensures ChapterAt(t, ids[i], chapters[i]) {
        assert ids[..n][i] == ids[i];
      }
      chapters := chapters + [last];
    }
  }

  lemma SomeTree(t: Content, course: nat) returns (chapters: seq<SnapshotChapter>)
    ensures ReadsChapters(t, course, chapters)
  {
    var ids := SomeListing(ChapterKeys(t, course));
    chapters := ChaptersOfIds(t, ids);
  }

  // ----- Sorted trees -----

  ghost predicate BlocksSorted(blocks: seq<SnapshotBlock>) {
    forall i, j | 0 <= i < j < |blocks| :: blocks[i].sortOrder <= blocks[j].sortOrder
  }

  ghost predicate LessonsSorted(lessons: seq<SnapshotLesson>) {
    && (forall i, j | 0 <= i < j < |lessons| :: lessons[i].sortOrder <= lessons[j].sortOrder)
    && (forall i | 0 <= i < |lessons| :: BlocksSorted(lessons[i].blocks))
  }

  /** Siblings are in the order of their sort orders, at every level. */
  ghost predicate Sorted(chapters: seq<SnapshotChapter>) {
    && (forall i, j | 0 <= i < j < |chapters| :: chapters[i].sortOrder <= chapters[j].sortOrder)
    && (forall i | 0 <= i < |chapters| :: LessonsSorted(chapters[i].lessons))
  }

  ghost predicate BlocksDistinct(blocks: seq<SnapshotBlock>) {
    forall i, j | 0 <= i < j < |blocks| :: blocks[i].sortOrder < blocks[j].sortOrder
  }

  ghost predicate LessonsDistinct(lessons: seq<SnapshotLesson>) {
    && (forall i, j | 0 <= i < j < |lessons| :: lessons[i].sortOrder < lessons[j].sortOrder)
    && (forall i | 0 <= i < |lessons| :: BlocksDistinct(lessons[i].blocks))
  }

  /** No two siblings share a sort order, at any level. */
  ghost predicate Distinct(chapters: seq<SnapshotChapter>) {
    && (forall i, j | 0 <= i < j < |chapters| :: chapters[i].sortOrder < chapters[j].sortOrder)
    && (forall i | 0 <= i < |chapters| :: LessonsDistinct(chapters[i].lessons))
  }

  lemma BlocksReadOnce(t: Content, lesson: nat, a: seq<SnapshotBlock>, b: seq<SnapshotBlock>)
    requires ReadsBlocks(t, lesson, a) && ReadsBlocks(t, lesson, b) && BlocksDistinct(a)
    ensures a == b
  {
    var keys := BlockKeys(t, lesson);
    var ids :| Listing(keys, ids) && BlocksAt(t, ids, a);
    var ids' :| Listing(keys, ids') && BlocksAt(t, ids', b);
    KeysRise(t, lesson, ids, a);
    ListingUnique(keys, ids, ids');
    BlocksSame(t, ids, a, b);
  }

  lemma KeysRise(t: Content, lesson: nat, ids: seq<nat>, blocks: seq<SnapshotBlock>)
    requires Listing(BlockKeys(t, lesson), ids) && BlocksAt(t, ids, blocks) && BlocksDistinct(blocks)
    ensures forall i, j | 0 <= i < j < |ids| :: BlockKeys(t, lesson)[ids[i]] < BlockKeys(t, lesson)[ids[j]]
  {
    forall i, j | 0 <= i < j < |ids| ensures BlockKeys(t, lesson)[ids[i]] < BlockKeys(t, lesson)[ids[j]] {
      assert blocks[i].sortOrder < blocks[j].sortOrder;
    }
  }

  lemma BlocksSame(t: Content, ids: seq<nat>, a: seq<SnapshotBlock>, b: seq<SnapshotBlock>)
    requires BlocksAt(t, ids, a) && BlocksAt(t, ids, b)
    ensures a == b
  {
    forall i | 0 <= i < |a| ensures a[i] == b[i] {
      assert a[i] == BlockOf(t.blocks[ids[i]]);
    }
  }

  lemma LessonsReadOnce(t: Content, chapter: nat, a: seq<SnapshotLesson>, b: seq<SnapshotLesson>)
    requires ReadsLessons(t, chapter, a) && ReadsLessons(t, chapter, b) && LessonsDistinct(a)
    ensures a == b
  {
    var keys := LessonKeys(t, chapter);
    var ids :| Listing(keys, ids) && LessonsAt(t, ids, a);
    var ids' :| Listing(keys, ids') && LessonsAt(t, ids', b);
    forall i, j | 0 <= i < j < |ids| ensures keys[ids[i]] < keys[ids[j]] {
      assert LessonAt(t, ids[i], a[i]) && LessonAt(t, ids[j], a[j]);
    }
    ListingUnique(keys, ids, ids');
    forall i | 0 <= i < |a| ensures a[i] == b[i] {
      assert LessonAt(t, ids[i], a[i]) && LessonAt(t, ids[i], b[i]);
      BlocksReadOnce(t, ids[i], a[i].blocks, b[i].blocks);
    }
  }

  /** When no siblings tie, the tables read back as one tree only. */
  lemma ReadOnce(t: Content, course: nat, a: CourseSnapshot, b: CourseSnapshot)
    requires Reads(t, course, a) && Reads(t, course, b) && Distinct(a.chapters)
    ensures a == b
  {
    var keys := ChapterKeys(t, course);
    var ids :| Listing(keys, ids) && ChaptersAt(t, ids, a.chapters);
    var ids' :| Listing(keys, ids') && ChaptersAt(t, ids', b.chapters);
    forall i, j | 0 <= i < j < |ids| ensures keys[ids[i]] < keys[ids[j]] {
      assert ChapterAt(t, ids[i], a.chapters[i]) && ChapterAt(t, ids[j], a.chapters[j]);
    }
    ListingUnique(keys, ids, ids');
    forall i | 0 <= i < |a.chapters| ensures a.chapters[i] == b.chapters[i] {
      assert ChapterAt(t, ids[i], a.chapters[i]) && ChapterAt(t, ids[i], b.chapters[i]);
      LessonsReadOnce(t, ids[i], a.chapters[i].lessons, b.chapters[i].lessons);
    }
  }

  // ----- What reading depends on -----

  /** The rows of `t` are in `t'` unchanged. */
  ghost predicate Retained(t: Content, t': Content) {
    && (forall i | i in t.chapters :: i in t'.chapters && t'.chapters[i] == t.chapters[i])
    && (forall i | i in t.lessons :: i in t'.lessons && t'.lessons[i] == t.lessons[i])
    && (forall i | i in t.blocks :: i in t'.blocks && t'.blocks[i] == t.blocks[i])
  }

  /** No block of `t'` that is new belongs to a lesson of `t`. */
  ghost predicate NoNewBlocks(t: Content, t': Content) {
    forall i | i in t'.blocks && i !in t.blocks :: t'.blocks[i].lesson !in t.lessons
  }

  ghost predicate NoNewLessons(t: Content, t': Content, chapter: nat) {
    forall i | i in t'.lessons && i !in t.lessons :: t'.lessons[i].chapter != chapter
  }

  lemma LessonsStay(t: Content, t': Content, chapter: nat, lessons: seq<SnapshotLesson>)
    requires Retained(t, t') && NoNewBlocks(t, t') && NoNewLessons(t, t', chapter)
    requires ReadsLessons(t, chapter, lessons)
    ensures ReadsLessons(t', chapter, lessons)
  {
    var ids :| Listing(LessonKeys(t, chapter), ids) && LessonsAt(t, ids, lessons);
    LessonKeysStay(t, t', chapter);
    forall i | 0 <= i < |ids| ensures LessonAt(t', ids[i], lessons[i]) {
      LessonStays(t, t', ids[i], lessons[i]);
    }
    assert LessonsAt(t', ids, lessons);
  }

  lemma LessonKeysStay(t: Content, t': Content, chapter: nat)
    requires Retained(t, t') && NoNewLessons(t, t', chapter)
    ensures LessonKeys(t', chapter) == LessonKeys(t, chapter)
  {
  }

  lemma LessonStays(t: Content, t': Content, id: nat, lesson: SnapshotLesson)
    requires Retained(t, t') && NoNewBlocks(t, t') && LessonAt(t, id, lesson)
    ensures LessonAt(t', id, lesson)
  {
    BlocksStay(t, t', id, lesson.blocks);
  }

  lemma BlocksStay(t: Content, t': Content, lesson: nat, blocks: seq<SnapshotBlock>)
    requires Retained(t, t') && ReadsBlocks(t, lesson, blocks)
    requires forall i | i in t'.blocks && i !in t.blocks :: t'.blocks[i].lesson != lesson
    ensures ReadsBlocks(t', lesson, blocks)
  {
    var ids :| Listing(BlockKeys(t, lesson), ids) && BlocksAt(t, ids, blocks);
    BlockKeysStay(t, t', lesson);
    assert BlocksAt(t', ids, blocks);
  }

  lemma BlockKeysStay(t: Content, t': Content, lesson: nat)
    requires Retained(t, t')
    requires forall i | i in t'.blocks && i !in t.blocks :: t'.blocks[i].lesson != lesson
    ensures BlockKeys(t', lesson) == BlockKeys(t, lesson)
  {
  }
}

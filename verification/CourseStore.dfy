/**
 * The course repositories: snapshotting a course into a version, restoring a
 * version over the live rows, and duplicating a course.
 */
module CourseStore {
  import opened Common
  import opened CourseContent

  // ----- Version numbers -----

  function OfCourse(course: nat): Version -> bool {
    (v: Version) => v.course == course
  }

  /** COALESCE(MAX(version_number), 0) over the versions of a course. */
  function MaxNumber(versions: seq<Version>, course: nat): nat {
    if versions == [] then 0
    else
      var sofar := MaxNumber(versions[..|versions| - 1], course);
      var v := versions[|versions| - 1];
      if v.course == course && v.number > sofar then v.number else sofar
  }

  /** Every course's versions are numbered 1, 2, 3 and so on in the order of their creation. */
  ghost predicate Numbered(versions: seq<Version>) {
    forall i | 0 <= i < |versions| :: versions[i].number == Count(versions[..i], OfCourse(versions[i].course)) + 1
  }

  lemma {:induction false} MaxIsCount(versions: seq<Version>, course: nat)
    requires Numbered(versions)
    ensures MaxNumber(versions, course) == Count(versions, OfCourse(course))
  {
    if versions == [] {
    } else {
      var init := versions[..|versions| - 1];
      forall i | 0 <= i < |init| ensures init[i].number == Count(init[..i], OfCourse(init[i].course)) + 1 {
        assert init[..i] == versions[..i];
      }
      MaxIsCount(init, course);
    }
  }

  lemma NumberedMore(versions: seq<Version>, v: Version)
    requires Numbered(versions) && v.number == MaxNumber(versions, v.course) + 1
    ensures Numbered(versions + [v])
  {
    MaxIsCount(versions, v.course);
    var more := versions + [v];
    forall i | 0 <= i < |more| ensures more[i].number == Count(more[..i], OfCourse(more[i].course)) + 1 {
      if i < |versions| {
        assert more[..i] == versions[..i];
      } else {
        assert more[..i] == versions;
      }
    }
  }

  lemma {:induction false} CountWithin(versions: seq<Version>, i: nat, wanted: Version -> bool)
    requires i < |versions| && wanted(versions[i])
    ensures Count(versions[..i], wanted) < Count(versions, wanted)
  {
    var last := |versions| - 1;
    if i == last {
    } else {
      CountWithin(versions[..last], i, wanted);
      assert versions[..last][..i] == versions[..i];
    }
  }

  lemma {:induction false} NumberGiven(versions: seq<Version>, course: nat, number: nat) returns (i: nat)
    requires Numbered(versions) && 1 <= number <= Count(versions, OfCourse(course))
    ensures i < |versions| && versions[i].course == course && versions[i].number == number
  {
    var last := |versions| - 1;
    var init := versions[..last];
    if OfCourse(course)(versions[last]) && number == Count(versions, OfCourse(course)) {
      i := last;
    } else {
      forall k | 0 <= k < last ensures init[k].number == Count(init[..k], OfCourse(init[k].course)) + 1 {
        assert init[..k] == versions[..k];
      }
      i := NumberGiven(init, course, number);
    }
  }

  /** So the numbers of a course's versions are exactly 1 to n... */
  lemma NumbersOneToN(versions: seq<Version>, course: nat, number: nat)
    requires Numbered(versions)
    ensures 1 <= number <= Count(versions, OfCourse(course)) <==>
              exists i :: 0 <= i < |versions| && versions[i].course == course && versions[i].number == number
  {
    if 1 <= number <= Count(versions, OfCourse(course)) {
      var i := NumberGiven(versions, course, number);
    }
    forall i | 0 <= i < |versions| && versions[i].course == course
      ensures 1 <= versions[i].number <= Count(versions, OfCourse(course))
    {
      CountWithin(versions, i, OfCourse(course));
    }
  }

  /** ...and a later version has a greater number. */
  lemma NumbersIncrease(versions: seq<Version>, i: nat, j: nat)
    requires Numbered(versions) && i < j < |versions| && versions[i].course == versions[j].course
    ensures versions[i].number < versions[j].number
  {
    CountWithin(versions[..j], i, OfCourse(versions[i].course));
    assert versions[..j][..i] == versions[..i];
  }

  // ----- Consistency of the tables -----

  /** Foreign keys hold, and the denormalised course of a row is that of its parent. */
  ghost predicate Linked(t: Content) {
    && (forall i | i in t.chapters :: t.chapters[i].course in t.courses)
    && (forall i | i in t.lessons ::
          t.lessons[i].chapter in t.chapters && t.lessons[i].course == t.chapters[t.lessons[i].chapter].course)
    && (forall i | i in t.blocks ::
          t.blocks[i].lesson in t.lessons && t.blocks[i].course == t.lessons[t.blocks[i].lesson].course)
  }

  /** No row has an id that is still to be handed out. */
  ghost predicate Below(t: Content, nextId: nat) {
    && (forall i | i in t.courses :: i < nextId)
    && (forall i | i in t.chapters :: i < nextId)
    && (forall i | i in t.lessons :: i < nextId)
    && (forall i | i in t.blocks :: i < nextId)
  }

  ghost predicate History(versions: seq<Version>) {
    Numbered(versions) && forall i | 0 <= i < |versions| :: Sorted(versions[i].snapshot.chapters)
  }

  function ChaptersElse(t: Content, course: nat): map<nat, Chapter> {
    map i | i in t.chapters && t.chapters[i].course != course :: t.chapters[i]
  }

  function LessonsElse(t: Content, course: nat): map<nat, Lesson> {
    map i | i in t.lessons && t.lessons[i].course != course :: t.lessons[i]
  }

  function BlocksElse(t: Content, course: nat): map<nat, Block> {
    map i | i in t.blocks && t.blocks[i].course != course :: t.blocks[i]
  }

  /** Every row of every other course is the same row in both. */
  ghost predicate OthersUntouched(t: Content, t': Content, course: nat) {
    && t'.courses - {course} == t.courses - {course}
    && ChaptersElse(t', course) == ChaptersElse(t, course)
    && LessonsElse(t', course) == LessonsElse(t, course)
    && BlocksElse(t', course) == BlocksElse(t, course)
  }

  /** What an insertion does: the rows there were stay, and the new ones belong to `course`. */
  ghost predicate Grown(t: Content, t': Content, course: nat) {
    && t'.courses == t.courses && t'.versions == t.versions
    && Retained(t, t')
    && (forall i | i in t'.chapters && i !in t.chapters :: t'.chapters[i].course == course)
    && (forall i | i in t'.lessons && i !in t.lessons :: t'.lessons[i].course == course)
    && (forall i | i in t'.blocks && i !in t.blocks :: t'.blocks[i].course == course)
  }

  /** Whatever row is new in `t'` was made by `author`; a new lesson has no watch threshold. */
  ghost predicate NewBy(t: Content, t': Content, author: nat) {
    && (forall i | i in t'.chapters && i !in t.chapters :: t'.chapters[i].createdBy == author)
    && (forall i | i in t'.lessons && i !in t.lessons ::
          t'.lessons[i].createdBy == author && t'.lessons[i].watchThreshold == None)
    && (forall i | i in t'.blocks && i !in t.blocks :: t'.blocks[i].createdBy == author)
  }

  /** Every content row of the course is. */
  ghost predicate AllBy(t: Content, course: nat, author: nat) {
    && (forall i | i in t.chapters && t.chapters[i].course == course :: t.chapters[i].createdBy == author)
    && (forall i | i in t.lessons && t.lessons[i].course == course ::
          t.lessons[i].createdBy == author && t.lessons[i].watchThreshold == None)
    && (forall i | i in t.blocks && t.blocks[i].course == course :: t.blocks[i].createdBy == author)
  }

  lemma NoneLeft(t: Content, course: nat)
    requires Linked(t) && ChapterKeys(t, course) == map[]
    ensures forall i | i in t.chapters :: t.chapters[i].course != course
    ensures forall i | i in t.lessons :: t.lessons[i].course != course
    ensures forall i | i in t.blocks :: t.blocks[i].course != course
  {
    forall i | i in t.chapters ensures t.chapters[i].course != course {
      assert i !in ChapterKeys(t, course);
    }
  }

  lemma NewByBoth(t: Content, t1: Content, t2: Content, author: nat)
    requires NewBy(t, t1, author) && NewBy(t1, t2, author) && Retained(t1, t2)
    ensures NewBy(t, t2, author)
  {
  }

  lemma GrownUntouched(t: Content, t': Content, course: nat)
    requires Grown(t, t', course)
    ensures OthersUntouched(t, t', course)
  {
  }

  /** The rows of course `other` in `t` are in `t'` too. */
  ghost predicate Carried(t: Content, t': Content, other: nat) {
    && (forall i | i in t.chapters && t.chapters[i].course == other :: i in t'.chapters && t'.chapters[i] == t.chapters[i])
    && (forall i | i in t.lessons && t.lessons[i].course == other :: i in t'.lessons && t'.lessons[i] == t.lessons[i])
    && (forall i | i in t.blocks && t.blocks[i].course == other :: i in t'.blocks && t'.blocks[i] == t.blocks[i])
  }

  lemma CarriedElse(t: Content, t': Content, course: nat, other: nat)
    requires OthersUntouched(t, t', course) && other != course
    ensures Carried(t, t', other)
  {
    assert forall i | i in t.chapters && t.chapters[i].course == other :: i in ChaptersElse(t, course);
    assert forall i | i in t.lessons && t.lessons[i].course == other :: i in LessonsElse(t, course);
    assert forall i | i in t.blocks && t.blocks[i].course == other :: i in BlocksElse(t, course);
  }

  lemma LessonReadSame(t: Content, t': Content, id: nat, lesson: SnapshotLesson)
    requires Linked(t) && Linked(t') && id in t.lessons
    requires Carried(t, t', t.lessons[id].course) && Carried(t', t, t.lessons[id].course)
    requires LessonAt(t, id, lesson)
    ensures LessonAt(t', id, lesson)
  {
    var ids :| Listing(BlockKeys(t, id), ids) && BlocksAt(t, ids, lesson.blocks);
    assert BlockKeys(t', id) == BlockKeys(t, id);
    assert BlocksAt(t', ids, lesson.blocks);
  }

  lemma LessonsReadSame(t: Content, t': Content, chapter: nat, lessons: seq<SnapshotLesson>)
    requires Linked(t) && Linked(t') && chapter in t.chapters
    requires Carried(t, t', t.chapters[chapter].course) && Carried(t', t, t.chapters[chapter].course)
    requires ReadsLessons(t, chapter, lessons)
    ensures ReadsLessons(t', chapter, lessons)
  {
    var ids :| Listing(LessonKeys(t, chapter), ids) && LessonsAt(t, ids, lessons);
    assert LessonKeys(t', chapter) == LessonKeys(t, chapter);
    forall i | 0 <= i < |ids| ensures LessonAt(t', ids[i], lessons[i]) {
      assert LessonAt(t, ids[i], lessons[i]);
      LessonReadSame(t, t', ids[i], lessons[i]);
    }
  }

  /** So every other course reads back as the same trees as before. */
  lemma OtherCoursesReadSame(t: Content, t': Content, course: nat, other: nat, s: CourseSnapshot)
    requires Linked(t) && Linked(t') && OthersUntouched(t, t', course) && other != course
    requires Reads(t, other, s)
    ensures Reads(t', other, s)
  {
    assert other in t.courses - {course};
    CarriedElse(t, t', course, other);
    CarriedElse(t', t, course, other);
    var ids :| Listing(ChapterKeys(t, other), ids) && ChaptersAt(t, ids, s.chapters);
    assert ChapterKeys(t', other) == ChapterKeys(t, other);
    forall i | 0 <= i < |ids| ensures ChapterAt(t', ids[i], s.chapters[i]) {
      assert ChapterAt(t, ids[i], s.chapters[i]);
      LessonsReadSame(t, t', ids[i], s.chapters[i].lessons);
    }
  }

  // ----- The repositories -----

  class Store {
    var t: Content
    /** The next id that no row has had. */
    var nextId: nat

    ghost predicate Valid()
      reads this
    {
      Linked(t) && Below(t, nextId) && History(t.versions)
    }

    constructor ()
      ensures Valid() && t == Content(map[], map[], map[], map[], [])
    {
      t := Content(map[], map[], map[], map[], []);
      nextId := 0;
    }

    /** ORDER BY sort_order: repeatedly takes any row with the least sort order of those left. */
    method OrderBySortOrder(keys: map<nat, real>) returns (ids: seq<nat>)
      ensures Listing(keys, ids)
    {
      ids := [];
      var left := keys.Keys;
      while left != {}
        invariant left <= keys.Keys
        invariant forall i | 0 <= i < |ids| :: ids[i] in keys && ids[i] !in left
        invariant forall k | k in keys :: k in left || k in ids
        invariant forall i, j | 0 <= i < j < |ids| :: ids[i] != ids[j] && keys[ids[i]] <= keys[ids[j]]
        invariant forall i, k | 0 <= i < |ids| && k in left :: keys[ids[i]] <= keys[k]
        decreases left
      {
        var m := Least(keys, left);
        ids := ids + [m];
        left := left - {m};
      }
    }

    method Least(keys: map<nat, real>, left: set<nat>) returns (m: nat)
      requires left != {} && left <= keys.Keys
      ensures m in left && forall k | k in left :: keys[m] <= keys[k]
    {
      m :| m in left;
      var rest := left - {m};
      while rest != {}
        invariant m in left && rest <= left
        invariant forall k | k in left && k !in rest :: keys[m] <= keys[k]
        decreases rest
      {
        var k :| k in rest;
        if keys[k] < keys[m] {
          m := k;
        }
        rest := rest - {k};
      }
    }

    // Reading, three loops deep.

    method ReadBlocks(lesson: nat) returns (blocks: seq<SnapshotBlock>)
      ensures ReadsBlocks(t, lesson, blocks) && BlocksSorted(blocks)
    {
      var ids := OrderBySortOrder(BlockKeys(t, lesson));
      blocks := [];
      for k := 0 to |ids|
        invariant BlocksAt(t, ids[..k], blocks)
      {
        blocks := blocks + [BlockOf(t.blocks[ids[k]])];
      }
      assert ids[..|ids|] == ids;
    }

    method ReadLessons(chapter: nat) returns (lessons: seq<SnapshotLesson>)
      ensures ReadsLessons(t, chapter, lessons) && LessonsSorted(lessons)
    {
      var ids := OrderBySortOrder(LessonKeys(t, chapter));
      lessons := [];
      for k := 0 to |ids|
        invariant LessonsAt(t, ids[..k], lessons)
        invariant forall i | 0 <= i < k :: BlocksSorted(lessons[i].blocks)
      {
        var row := t.lessons[ids[k]];
        var blocks := ReadBlocks(ids[k]);
        var lesson := SnapshotLesson(row.title, row.sortOrder, blocks);
        assert LessonAt(t, ids[k], lesson);
        lessons := lessons + [lesson];
      }
      assert ids[..|ids|] == ids;
      assert forall i | 0 <= i < |ids| :: LessonAt(t, ids[i], lessons[i]);
    }

    method ReadChapters(course: nat) returns (chapters: seq<SnapshotChapter>)
      ensures ReadsChapters(t, course, chapters) && Sorted(chapters)
    {
      var ids := OrderBySortOrder(ChapterKeys(t, course));
      chapters := [];
      for k := 0 to |ids|
        invariant ChaptersAt(t, ids[..k], chapters)
        invariant forall i | 0 <= i < k :: LessonsSorted(chapters[i].lessons)
      {
        var row := t.chapters[ids[k]];
        var lessons := ReadLessons(ids[k]);
        var chapter := SnapshotChapter(row.title, row.sortOrder, lessons);
        assert ChapterAt(t, ids[k], chapter);
        chapters := chapters + [chapter];
      }
      assert ids[..|ids|] == ids;
      assert forall i | 0 <= i < |ids| :: ChapterAt(t, ids[i], chapters[i]);
    }

    /**
     * Stores what the course reads back as under the next version number; None
     * when there is no such course. Content and earlier versions stay.
     */
    method Snapshot(course: nat, author: nat) returns (v: Option<nat>)
      requires Valid()
      modifies this
      ensures Valid() && nextId == old(nextId)
      ensures v.None? <==> course !in old(t).courses
      ensures v.None? ==> t == old(t)
      ensures v.Some? ==>
        && v.value == |old(t).versions| && |t.versions| == v.value + 1
        && t == old(t).(versions := old(t).versions + [t.versions[v.value]])
        && t.versions[v.value].course == course
        && t.versions[v.value].number == Count(old(t).versions, OfCourse(course)) + 1
        && t.versions[v.value].createdBy == author
        && Reads(t, course, t.versions[v.value].snapshot)
    {
      if course !in t.courses {
        return None;
      }
      var chapters := ReadChapters(course);
      var snapshot := CourseSnapshot(t.courses[course].title, t.courses[course].description, chapters);
      var version := Version(course, MaxNumber(t.versions, course) + 1, snapshot, author);
      NumberedMore(t.versions, version);
      MaxIsCount(t.versions, course);
      v := Some(|t.versions|);
      ghost var before := t;
      t := t.(versions := t.versions + [version]);
      ReadsRowsOnly(before, t, course, chapters);
    }

    // Inserting one row.

    method InsertCourse(row: Course) returns (id: nat)
      requires Valid()
      modifies this
      ensures Valid() && id == old(nextId) && nextId == id + 1
      ensures id !in old(t).courses && t == old(t).(courses := old(t).courses[id := row])
      ensures ChapterKeys(t, id) == map[]
    {
      id := nextId;
      t := t.(courses := t.courses[id := row]);
      nextId := nextId + 1;
    }

    method InsertBlock(row: Block) returns (id: nat)
      requires Valid() && row.lesson in t.lessons && t.lessons[row.lesson].course == row.course
      modifies this
      ensures Valid() && id == old(nextId) && nextId == id + 1
      ensures id !in old(t).blocks && t == old(t).(blocks := old(t).blocks[id := row])
      ensures BlockKeys(t, row.lesson) == BlockKeys(old(t), row.lesson)[id := row.sortOrder]
    {
      id := nextId;
      t := t.(blocks := t.blocks[id := row]);
      nextId := nextId + 1;
    }

    method InsertLesson(row: Lesson) returns (id: nat)
      requires Valid() && row.chapter in t.chapters && t.chapters[row.chapter].course == row.course
      modifies this
      ensures Valid() && id == old(nextId) && nextId == id + 1
      ensures id !in old(t).lessons && t == old(t).(lessons := old(t).lessons[id := row])
      ensures LessonKeys(t, row.chapter) == LessonKeys(old(t), row.chapter)[id := row.sortOrder]
      ensures BlockKeys(t, id) == map[]
    {
      id := nextId;
      t := t.(lessons := t.lessons[id := row]);
      nextId := nextId + 1;
    }

    method InsertChapter(row: Chapter) returns (id: nat)
      requires Valid() && row.course in t.courses
      modifies this
      ensures Valid() && id == old(nextId) && nextId == id + 1
      ensures id !in old(t).chapters && t == old(t).(chapters := old(t).chapters[id := row])
      ensures ChapterKeys(t, row.course) == ChapterKeys(old(t), row.course)[id := row.sortOrder]
      ensures LessonKeys(t, id) == map[]
    {
      id := nextId;
      t := t.(chapters := t.chapters[id := row]);
      nextId := nextId + 1;
    }

    // Writing a tree, three loops deep.

    method InsertBlocks(lesson: nat, course: nat, blocks: seq<SnapshotBlock>, author: nat)
      requires Valid() && lesson in t.lessons && t.lessons[lesson].course == course
      requires BlockKeys(t, lesson) == map[] && BlocksSorted(blocks)
      modifies this
      ensures Valid() && old(nextId) <= nextId
      ensures BlocksInserted(old(t), t, lesson, course) && NewBy(old(t), t, author)
      ensures ReadsBlocks(t, lesson, blocks)
    {
      ghost var start := t;
      ghost var ids := [];
      for k := 0 to |blocks|
        invariant Valid() && old(nextId) <= nextId
        invariant BlocksInserted(start, t, lesson, course) && NewBy(start, t, author)
        invariant Listing(BlockKeys(t, lesson), ids) && BlocksAt(t, ids, blocks[..k])
      {
        var b := blocks[k];
        ghost var before := t;
        var id := InsertBlock(Block(lesson, course, b.kind, b.content, b.sortOrder, author));
        BlocksInsertedMore(start, before, t, lesson, course, id);
        BlockAdded(before, t, lesson, ids, blocks, k, id);
        ids := ids + [id];
      }
      assert blocks[..|blocks|] == blocks;
    }

    method InsertLessons(chapter: nat, course: nat, lessons: seq<SnapshotLesson>, author: nat)
      requires Valid() && chapter in t.chapters && t.chapters[chapter].course == course
      requires LessonKeys(t, chapter) == map[] && LessonsSorted(lessons)
      modifies this
      ensures Valid() && old(nextId) <= nextId
      ensures LessonsInserted(old(t), t, chapter, course) && NewBy(old(t), t, author)
      ensures ReadsLessons(t, chapter, lessons)
    {
      ghost var start := t;
      ghost var ids := [];
      for k := 0 to |lessons|
        invariant Valid() && old(nextId) <= nextId
        invariant LessonsInserted(start, t, chapter, course) && NewBy(start, t, author)
        invariant Listing(LessonKeys(t, chapter), ids) && LessonsAt(t, ids, lessons[..k])
      {
        ghost var before := t;
        var lesson := lessons[k];
        var id := InsertLesson(Lesson(chapter, course, lesson.title, lesson.sortOrder, author, None));
        ghost var inserted := t;
        InsertBlocks(id, course, lesson.blocks, author);
        NewByBoth(start, inserted, t, author);
        LessonAdded(before, inserted, t, chapter, course, ids, lessons, k, id);
        LessonsInsertedMore(start, before, inserted, t, chapter, course, id);
        ids := ids + [id];
      }
      assert lessons[..|lessons|] == lessons;
    }

    method InsertChapters(course: nat, chapters: seq<SnapshotChapter>, author: nat)
      requires Valid() && course in t.courses
      requires ChapterKeys(t, course) == map[] && Sorted(chapters)
      modifies this
      ensures Valid() && old(nextId) <= nextId
      ensures Grown(old(t), t, course) && NewBy(old(t), t, author)
      ensures ReadsChapters(t, course, chapters)
    {
      ghost var start := t;
      ghost var ids := [];
      for k := 0 to |chapters|
        invariant Valid() && old(nextId) <= nextId
        invariant Grown(start, t, course) && NewBy(start, t, author)
        invariant Listing(ChapterKeys(t, course), ids) && ChaptersAt(t, ids, chapters[..k])
      {
        ghost var before := t;
        var chapter := chapters[k];
        var id := InsertChapter(Chapter(course, chapter.title, chapter.sortOrder, author));
        ghost var inserted := t;
        InsertLessons(id, course, chapter.lessons, author);
        NewByBoth(start, inserted, t, author);
        ChapterAdded(before, inserted, t, course, ids, chapters, k, id);
        GrownMore(start, before, inserted, t, course, id);
        ids := ids + [id];
      }
      assert chapters[..|chapters|] == chapters;
    }

    /** DELETE FROM chapters WHERE course_id = course, cascading to lessons and blocks. */
    method DeleteChapters(course: nat)
      requires Valid()
      modifies this
      ensures Valid() && nextId == old(nextId)
      ensures t.courses == old(t).courses && t.versions == old(t).versions
      ensures OthersUntouched(old(t), t, course)
      ensures ChapterKeys(t, course) == map[]
    {
      var chapters := map i | i in t.chapters && t.chapters[i].course != course :: t.chapters[i];
      var lessons := map i | i in t.lessons && t.lessons[i].chapter in chapters :: t.lessons[i];
      var blocks := map i | i in t.blocks && t.blocks[i].lesson in lessons :: t.blocks[i];
      t := t.(chapters := chapters, lessons := lessons, blocks := blocks);
    }

    /**
     * Puts version `versionId` back as the live content and stores that as a new
     * version. The content reads back as the restored snapshot; no version there
     * was is changed, and no other course is touched. None when the version or
     * the course is missing, or the version is another course's.
     */
    method Restore(course: nat, versionId: nat, author: nat) returns (v: Option<nat>)
      requires Valid()
      modifies this
      ensures Valid()
      ensures v.None? <==> versionId >= |old(t).versions| || old(t).versions[versionId].course != course
                           || course !in old(t).courses
      ensures v.None? ==> t == old(t)
      ensures v.Some? ==> v.value == |old(t).versions| && Restored(old(t), t, course, versionId)
      ensures v.Some? ==> AllBy(t, course, author) && t.versions[v.value].createdBy == author
    {
      if versionId >= |t.versions| || t.versions[versionId].course != course || course !in t.courses {
        return None;
      }
      var snapshot := t.versions[versionId].snapshot;
      ghost var start := t;
      ReplaceContent(course, snapshot, author);
      ghost var live := t;
      v := Snapshot(course, author);
      RestoredBy(start, live, t, course, versionId);
    }

    /** Deletes the course's content and writes the snapshot in its place. */
    method ReplaceContent(course: nat, snapshot: CourseSnapshot, author: nat)
      requires Valid() && course in t.courses && Sorted(snapshot.chapters)
      modifies this
      ensures Valid() && t.versions == old(t).versions
      ensures t.courses == old(t).courses[course := old(t).courses[course].(title := snapshot.title,
                                                                          description := snapshot.description)]
      ensures Reads(t, course, snapshot)
      ensures OthersUntouched(old(t), t, course) && AllBy(t, course, author)
    {
      DeleteChapters(course);
      ghost var deleted := t;
      InsertChapters(course, snapshot.chapters, author);
      ghost var inserted := t;
      GrownUntouched(deleted, inserted, course);
      NoneLeft(deleted, course);
      t := t.(courses := t.courses[course := t.courses[course].(title := snapshot.title,
                                                                description := snapshot.description)]);
      ReadsRowsOnly(inserted, t, course, snapshot.chapters);
      RowsUntouched(inserted, t, course);
    }
  }

  lemma RowsUntouched(t: Content, t': Content, course: nat)
    requires t' == t.(courses := t'.courses, versions := t'.versions)
    requires t'.courses - {course} == t.courses - {course}
    ensures OthersUntouched(t, t', course)
  {
  }

  lemma RestoredBy(t: Content, live: Content, t': Content, course: nat, versionId: nat)
    requires versionId < |t.versions| && course in t.courses
    requires live.versions == t.versions && Reads(live, course, t.versions[versionId].snapshot)
    requires OthersUntouched(t, live, course)
    requires live.courses == t.courses[course := t.courses[course].(title := t.versions[versionId].snapshot.title,
                                                      description := t.versions[versionId].snapshot.description)]
    requires |t'.versions| == |t.versions| + 1
    requires t' == live.(versions := t.versions + [t'.versions[|t.versions|]])
    requires t'.versions[|t.versions|].course == course
    requires t'.versions[|t.versions|].number == Count(t.versions, OfCourse(course)) + 1
    requires Reads(t', course, t'.versions[|t.versions|].snapshot)
    ensures Restored(t, t', course, versionId)
  {
    var s := t.versions[versionId].snapshot;
    ReadsRowsOnly(live, t', course, s.chapters);
    RowsUntouched(live, t', course);
    if Distinct(s.chapters) {
      ReadOnce(t', course, s, t'.versions[|t.versions|].snapshot);
    }
  }

  /** The state after a restore, in terms of the state before it. */
  ghost predicate Restored(t: Content, t': Content, course: nat, versionId: nat)
    requires versionId < |t.versions|
  {
    var n, s := |t.versions|, t.versions[versionId].snapshot;
    && |t'.versions| == n + 1 && t'.versions[..n] == t.versions
    && t'.versions[n].course == course && t'.versions[n].number == Count(t.versions, OfCourse(course)) + 1
    && Reads(t', course, s) && Reads(t', course, t'.versions[n].snapshot)
    && (Distinct(s.chapters) ==> t'.versions[n].snapshot == s)
    && OthersUntouched(t, t', course)
    && course in t.courses
    && t'.courses == t.courses[course := t.courses[course].(title := s.title, description := s.description)]
  }

  // ----- The effect of the insertions -----

  /** Only blocks of `lesson` were inserted. */
  ghost predicate BlocksInserted(t: Content, t': Content, lesson: nat, course: nat) {
    && t' == t.(blocks := t'.blocks)
    && (forall i | i in t.blocks :: i in t'.blocks && t'.blocks[i] == t.blocks[i])
    && (forall i | i in t'.blocks && i !in t.blocks :: t'.blocks[i].lesson == lesson && t'.blocks[i].course == course)
  }

  /** Only lessons of `chapter` and blocks of these lessons were inserted. */
  ghost predicate LessonsInserted(t: Content, t': Content, chapter: nat, course: nat) {
    && t' == t.(lessons := t'.lessons, blocks := t'.blocks)
    && (forall i | i in t.lessons :: i in t'.lessons && t'.lessons[i] == t.lessons[i])
    && (forall i | i in t.blocks :: i in t'.blocks && t'.blocks[i] == t.blocks[i])
    && (forall i | i in t'.lessons && i !in t.lessons :: t'.lessons[i].chapter == chapter && t'.lessons[i].course == course)
    && (forall i | i in t'.blocks && i !in t.blocks :: t'.blocks[i].lesson !in t.lessons && t'.blocks[i].course == course)
  }

  lemma LessonsInsertedMore(start: Content, t: Content, t1: Content, t2: Content, chapter: nat, course: nat, id: nat)
    requires LessonsInserted(start, t, chapter, course)
    requires id !in t.lessons && id in t1.lessons && t1 == t.(lessons := t.lessons[id := t1.lessons[id]])
    requires t1.lessons[id].chapter == chapter && t1.lessons[id].course == course
    requires BlocksInserted(t1, t2, id, course)
    ensures LessonsInserted(start, t2, chapter, course)
  {
  }

  lemma GrownMore(start: Content, t: Content, t1: Content, t2: Content, course: nat, id: nat)
    requires Grown(start, t, course)
    requires id !in t.chapters && id in t1.chapters && t1 == t.(chapters := t.chapters[id := t1.chapters[id]])
    requires t1.chapters[id].course == course
    requires LessonsInserted(t1, t2, id, course)
    ensures Grown(start, t2, course)
  {
  }

  lemma BlocksInsertedMore(start: Content, t: Content, t': Content, lesson: nat, course: nat, id: nat)
    requires BlocksInserted(start, t, lesson, course)
    requires id !in t.blocks && id in t'.blocks && t' == t.(blocks := t.blocks[id := t'.blocks[id]])
    requires t'.blocks[id].lesson == lesson && t'.blocks[id].course == course
    ensures BlocksInserted(start, t', lesson, course)
  {
  }

  lemma BlockAdded(t: Content, t1: Content, lesson: nat, ids: seq<nat>, blocks: seq<SnapshotBlock>, k: nat, id: nat)
    requires k < |blocks| && BlocksSorted(blocks) && BlocksAt(t, ids, blocks[..k])
    requires Listing(BlockKeys(t, lesson), ids)
    requires id !in t.blocks && id in t1.blocks && t1 == t.(blocks := t.blocks[id := t1.blocks[id]])
    requires t1.blocks[id].lesson == lesson && BlockOf(t1.blocks[id]) == blocks[k]
    requires BlockKeys(t1, lesson) == BlockKeys(t, lesson)[id := blocks[k].sortOrder]
    ensures Listing(BlockKeys(t1, lesson), ids + [id]) && BlocksAt(t1, ids + [id], blocks[..k + 1])
  {
    ListingMore(BlockKeys(t, lesson), ids, id, blocks[k].sortOrder);
  }

  lemma LessonAdded(t: Content, t1: Content, t2: Content, chapter: nat, course: nat, ids: seq<nat>,
                    lessons: seq<SnapshotLesson>, k: nat, id: nat)
    requires k < |lessons| && LessonsSorted(lessons)
    requires Linked(t) && LessonsAt(t, ids, lessons[..k]) && Listing(LessonKeys(t, chapter), ids)
    requires id !in t.lessons && id in t1.lessons && t1 == t.(lessons := t.lessons[id := t1.lessons[id]])
    requires t1.lessons[id].title == lessons[k].title && t1.lessons[id].sortOrder == lessons[k].sortOrder
    requires LessonKeys(t1, chapter) == LessonKeys(t, chapter)[id := lessons[k].sortOrder]
    requires BlocksInserted(t1, t2, id, course) && ReadsBlocks(t2, id, lessons[k].blocks)
    ensures Listing(LessonKeys(t2, chapter), ids + [id]) && LessonsAt(t2, ids + [id], lessons[..k + 1])
  {
    EarlierLessons(t, t1, t2, chapter, course, ids, lessons, k, id);
    assert LessonAt(t2, id, lessons[k]);
    LessonsAtMore(t2, ids, lessons, k, id);
    ListingMore(LessonKeys(t, chapter), ids, id, lessons[k].sortOrder);
    assert LessonKeys(t2, chapter) == LessonKeys(t1, chapter);
  }

  lemma EarlierLessons(t: Content, t1: Content, t2: Content, chapter: nat, course: nat, ids: seq<nat>,
                       lessons: seq<SnapshotLesson>, k: nat, id: nat)
    requires k < |lessons| && (forall i | 0 <= i < k :: lessons[i].sortOrder <= lessons[k].sortOrder)
    requires Linked(t) && LessonsAt(t, ids, lessons[..k]) && Listing(LessonKeys(t, chapter), ids)
    requires id !in t.lessons && id in t1.lessons && t1 == t.(lessons := t.lessons[id := t1.lessons[id]])
    requires BlocksInserted(t1, t2, id, course)
    ensures |ids| == k && forall i | 0 <= i < k :: LessonAt(t2, ids[i], lessons[i])
    ensures forall i | 0 <= i < k :: LessonKeys(t, chapter)[ids[i]] <= lessons[k].sortOrder
  {
    forall i | 0 <= i < k
      ensures LessonAt(t2, ids[i], lessons[i]) && LessonKeys(t, chapter)[ids[i]] <= lessons[k].sortOrder
    {
      assert LessonAt(t, ids[i], lessons[..k][i]);
      BlocksStay(t, t2, ids[i], lessons[i].blocks);
    }
  }

  lemma LessonsAtMore(t: Content, ids: seq<nat>, lessons: seq<SnapshotLesson>, k: nat, id: nat)
    requires k < |lessons| && |ids| == k && (forall i | 0 <= i < k :: LessonAt(t, ids[i], lessons[i]))
    requires LessonAt(t, id, lessons[k])
    ensures LessonsAt(t, ids + [id], lessons[..k + 1])
  {
  }

  lemma ChaptersAtMore(t: Content, ids: seq<nat>, chapters: seq<SnapshotChapter>, k: nat, id: nat)
    requires k < |chapters| && |ids| == k && (forall i | 0 <= i < k :: ChapterAt(t, ids[i], chapters[i]))
    requires ChapterAt(t, id, chapters[k])
    ensures ChaptersAt(t, ids + [id], chapters[..k + 1])
  {
  }

  lemma ChapterAdded(t: Content, t1: Content, t2: Content, course: nat, ids: seq<nat>, chapters: seq<SnapshotChapter>,
                     k: nat, id: nat)
    requires k < |chapters| && Sorted(chapters)
    requires Linked(t) && ChaptersAt(t, ids, chapters[..k]) && Listing(ChapterKeys(t, course), ids)
    requires id !in t.chapters && id in t1.chapters && t1 == t.(chapters := t.chapters[id := t1.chapters[id]])
    requires t1.chapters[id].title == chapters[k].title && t1.chapters[id].sortOrder == chapters[k].sortOrder
    requires ChapterKeys(t1, course) == ChapterKeys(t, course)[id := chapters[k].sortOrder]
    requires LessonsInserted(t1, t2, id, course) && ReadsLessons(t2, id, chapters[k].lessons)
    ensures Listing(ChapterKeys(t2, course), ids + [id]) && ChaptersAt(t2, ids + [id], chapters[..k + 1])
  {
    EarlierChapters(t, t1, t2, course, ids, chapters, k, id);
    assert ChapterAt(t2, id, chapters[k]);
    ChaptersAtMore(t2, ids, chapters, k, id);
    ListingMore(ChapterKeys(t, course), ids, id, chapters[k].sortOrder);
    assert ChapterKeys(t2, course) == ChapterKeys(t1, course);
  }

  lemma EarlierChapters(t: Content, t1: Content, t2: Content, course: nat, ids: seq<nat>, chapters: seq<SnapshotChapter>,
                        k: nat, id: nat)
    requires k < |chapters| && (forall i | 0 <= i < k :: chapters[i].sortOrder <= chapters[k].sortOrder)
    requires Linked(t) && ChaptersAt(t, ids, chapters[..k]) && Listing(ChapterKeys(t, course), ids)
    requires id !in t.chapters && id in t1.chapters && t1 == t.(chapters := t.chapters[id := t1.chapters[id]])
    requires LessonsInserted(t1, t2, id, course)
    ensures |ids| == k && forall i | 0 <= i < k :: ChapterAt(t2, ids[i], chapters[i])
    ensures forall i | 0 <= i < k :: ChapterKeys(t, course)[ids[i]] <= chapters[k].sortOrder
  {
    forall i | 0 <= i < k
      ensures ChapterAt(t2, ids[i], chapters[i]) && ChapterKeys(t, course)[ids[i]] <= chapters[k].sortOrder
    {
      assert ChapterAt(t, ids[i], chapters[..k][i]);
      ChapterStays(t, t1, t2, course, ids[i], chapters[i], id);
    }
  }

  lemma ChapterStays(t: Content, t1: Content, t2: Content, course: nat, other: nat, chapter: SnapshotChapter, id: nat)
    requires Linked(t) && ChapterAt(t, other, chapter)
    requires id !in t.chapters && id in t1.chapters && t1 == t.(chapters := t.chapters[id := t1.chapters[id]])
    requires LessonsInserted(t1, t2, id, course)
    ensures ChapterAt(t2, other, chapter)
  {
    LessonsStay(t, t2, other, chapter.lessons);
  }

  /** Reading a tree does not look at the courses and versions tables. */
  lemma ReadsRowsOnly(t: Content, t': Content, course: nat, chapters: seq<SnapshotChapter>)
    requires t' == t.(courses := t'.courses, versions := t'.versions) && ReadsChapters(t, course, chapters)
    ensures ReadsChapters(t', course, chapters)
  {
    var ids :| Listing(ChapterKeys(t, course), ids) && ChaptersAt(t, ids, chapters);
    forall i | 0 <= i < |ids| ensures ChapterAt(t', ids[i], chapters[i]) {
      assert ChapterAt(t, ids[i], chapters[i]);
      LessonsStay(t, t', ids[i], chapters[i].lessons);
    }
    assert ChapterKeys(t', course) == ChapterKeys(t, course);
  }

  /** Restoring the snapshot taken just before a restore undoes it. */
  method RestoreThenUndo(store: Store, course: nat, versionId: nat, author: nat, ghost s: CourseSnapshot)
    requires store.Valid() && Reads(store.t, course, s) && Distinct(s.chapters)
    requires versionId < |store.t.versions| && store.t.versions[versionId].course == course
    modifies store
    ensures store.Valid()
    ensures Reads(store.t, course, s) && forall s' :: Reads(store.t, course, s') ==> s' == s
    ensures ShowsAll(old(store.t), course, store.t, course) && ShowsAll(store.t, course, old(store.t), course)
    ensures OthersUntouched(old(store.t), store.t, course)
    ensures |store.t.versions| == |old(store.t).versions| + 3
    ensures store.t.versions[..|old(store.t).versions|] == old(store.t).versions
  {
    ghost var start := store.t;
    var before := store.Snapshot(course, author);
    ghost var saved := store.t;
    var _ := store.Restore(course, versionId, author);
    ghost var restored := store.t;
    UndoReady(start, saved, restored, course, versionId, s);
    var _ := store.Restore(course, before.value, author);
    Undone(start, saved, restored, store.t, course, versionId, s);
    SameTreeShows(start, course, store.t, course, s.chapters);
  }

  /** After the snapshot and the restore, the version to go back to still holds the tree there was. */
  lemma UndoReady(t: Content, saved: Content, restored: Content, course: nat, versionId: nat, s: CourseSnapshot)
    requires Reads(t, course, s) && Distinct(s.chapters) && versionId < |t.versions|
    requires |saved.versions| == |t.versions| + 1
    requires saved == t.(versions := t.versions + [saved.versions[|t.versions|]])
    requires saved.versions[|t.versions|].course == course
    requires Reads(saved, course, saved.versions[|t.versions|].snapshot)
    requires Restored(saved, restored, course, versionId)
    ensures |restored.versions| == |t.versions| + 2 && restored.versions[..|t.versions|] == t.versions
    ensures restored.versions[|t.versions|].course == course && restored.versions[|t.versions|].snapshot == s
    ensures OthersUntouched(t, restored, course) && course in restored.courses
  {
    var n := |t.versions|;
    ReadsRowsOnly(t, saved, course, s.chapters);
    ReadOnce(saved, course, s, saved.versions[n].snapshot);
    assert restored.versions[n] == restored.versions[..n + 1][n];
    assert restored.versions[..n] == restored.versions[..n + 1][..n];
    RowsUntouched(t, saved, course);
  }

  lemma Undone(t: Content, saved: Content, restored: Content, t': Content, course: nat, versionId: nat,
               s: CourseSnapshot)
    requires Distinct(s.chapters)
    requires |restored.versions| == |t.versions| + 2 && restored.versions[..|t.versions|] == t.versions
    requires restored.versions[|t.versions|].snapshot == s && OthersUntouched(t, restored, course)
    requires Restored(restored, t', course, |t.versions|)
    ensures Reads(t', course, s) && forall s' :: Reads(t', course, s') ==> s' == s
    ensures OthersUntouched(t, t', course)
    ensures |t'.versions| == |t.versions| + 3 && t'.versions[..|t.versions|] == t.versions
  {
    forall s' | Reads(t', course, s') ensures s' == s {
      ReadOnce(t', course, s, s');
    }
    assert t'.versions[..|t.versions|] == t'.versions[..|t.versions| + 2][..|t.versions|];
  }
}

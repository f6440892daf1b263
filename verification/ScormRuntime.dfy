/**
 * What a package reports of a run: folding its committed elements into one
 * state, the status derived from them, and when that counts as complete.
 */
module ScormRuntime {
  import opened Common
  import opened ScormDurations
  import ScormAttempts

  datatype Version = Version12 | Version2004

  datatype RuntimeState = RuntimeState(lessonStatus: string, completionStatus: string, successStatus: string,
                                       scoreRaw: Option<real>, scoreMin: Option<real>, scoreMax: Option<real>,
                                       scoreScaled: Option<real>, sessionSeconds: nat, location: string,
                                       suspendData: string, exit: string, complete: bool)

  const EMPTY_STATE := RuntimeState("", "", "", None, None, None, None, 0, "", "", "", false)

  // ----- Statuses -----

  function ToLower(s: string): string {
    seq(|s|, i requires 0 <= i < |s| => if 'A' <= s[i] <= 'Z' then s[i] - 'A' + 'a' else s[i])
  }

  /** How statuses are compared and stored, whatever case and spaces they were written with. */
  function NormStatus(v: string): string {
    ToLower(TrimSpace(v))
  }

  /** A status of both SCORM versions; success, when decided, goes before completion. */
  function DeriveLessonStatus(completion: string, success: string): string {
    if success == "passed" then "passed"
    else if success == "failed" then "failed"
    else if completion == "completed" then "completed"
    else if completion == "not attempted" then "not attempted"
    else "incomplete"
  }

  predicate IsComplete(version: Version, st: RuntimeState) {
    match version
    case Version12 => st.lessonStatus in ["passed", "completed", "failed"]
    case Version2004 => st.completionStatus == "completed" || st.successStatus in ["passed", "failed"]
  }

  /** The lesson status a learner's record shows says the run is over. */
  predicate Over(status: string) {
    status in ["passed", "completed", "failed"]
  }

  // ----- Elements -----

  function Element(elements: map<string, string>, key: string): Option<string> {
    if key in elements then Some(elements[key]) else None
  }

  function StatusOf(elements: map<string, string>, key: string): string {
    NormStatus(Element(elements, key).GetOr(""))
  }

  /** A score is recorded when it is a number as it stands, without trimming. */
  function ScoreOf(elements: map<string, string>, key: string): Option<real> {
    match Element(elements, key)
    case Some(v) => ParseFloat(v)
    case None => None
  }

  function SecondsOf(version: Version, elements: map<string, string>): nat {
    match version
    case Version12 => Timespan12(Element(elements, "cmi.core.session_time").GetOr("")).GetOr(0)
    case Version2004 => Duration2004(Element(elements, "cmi.session_time").GetOr("")).GetOr(0)
  }

  /**
   * Folds the elements into a state. In either version the state is complete
   * exactly when the lesson status it gives is passed, completed or failed.
   */
  method Summarize(version: Version, elements: map<string, string>) returns (st: RuntimeState)
    ensures st.complete <==> Over(st.lessonStatus)
    ensures version == Version12 ==>
      && st.lessonStatus == StatusOf(elements, "cmi.core.lesson_status")
      && st.completionStatus == "" && st.successStatus == "" && st.scoreScaled == None
      && st.scoreRaw == ScoreOf(elements, "cmi.core.score.raw")
      && st.scoreMin == ScoreOf(elements, "cmi.core.score.min")
      && st.scoreMax == ScoreOf(elements, "cmi.core.score.max")
      && st.location == Element(elements, "cmi.core.lesson_location").GetOr("")
      && st.exit == Element(elements, "cmi.core.exit").GetOr("")
    ensures version == Version2004 ==>
      && st.lessonStatus == DeriveLessonStatus(st.completionStatus, st.successStatus)
      && StatusFollows(st.completionStatus, st.successStatus, st.lessonStatus)
      && st.completionStatus == StatusOf(elements, "cmi.completion_status")
      && st.successStatus == StatusOf(elements, "cmi.success_status")
      && st.scoreRaw == ScoreOf(elements, "cmi.score.raw")
      && st.scoreMin == ScoreOf(elements, "cmi.score.min")
      && st.scoreMax == ScoreOf(elements, "cmi.score.max")
      && st.scoreScaled == ScoreOf(elements, "cmi.score.scaled")
      && st.location == Element(elements, "cmi.location").GetOr("")
      && st.exit == Element(elements, "cmi.exit").GetOr("")
    ensures st.sessionSeconds == SecondsOf(version, elements)
    ensures st.suspendData == Element(elements, "cmi.suspend_data").GetOr("")
  {
    match version {
      case Version12 => st := Read12(elements);
      case Version2004 => st := Read2004(elements);
    }
    if "cmi.suspend_data" in elements {
      st := st.(suspendData := elements["cmi.suspend_data"]);
    }
    CompleteIsOver(version, st);
    DerivedFollows(st.completionStatus, st.successStatus);
    st := st.(complete := IsComplete(version, st));
  }

  /** A 2004 state's derived status is over exactly when one of the two it derives from is decisive. */
  lemma CompleteIsOver(version: Version, st: RuntimeState)
    requires version == Version2004 ==> st.lessonStatus == DeriveLessonStatus(st.completionStatus, st.successStatus)
    ensures IsComplete(version, st) <==> Over(st.lessonStatus)
  {
    assert Over("passed") && Over("failed") && Over("completed");
    assert "not attempted"[0] == 'n' && !Over("not attempted");
    assert "incomplete"[0] == 'i' && !Over("incomplete");
  }

  /**
   * In SCORM 2004 a success status of passed or failed is the lesson status;
   * without one it follows the completion status.
   */
  ghost predicate StatusFollows(completion: string, success: string, lesson: string) {
    if success == "passed" || success == "failed" then lesson == success
    else
      && (lesson == "completed" <==> completion == "completed")
      && (lesson == "not attempted" <==> completion == "not attempted")
      && (completion != "completed" && completion != "not attempted" ==> lesson == "incomplete")
  }

  lemma DerivedFollows(completion: string, success: string)
    ensures StatusFollows(completion, success, DeriveLessonStatus(completion, success))
  {
    assert "completed"[0] == 'c' && "not attempted"[0] == 'n' && "incomplete"[0] == 'i';
  }

  /** `r` is `core`, with small letters for capitals. */
  predicate Lowered(core: string, r: string) {
    && |r| == |core|
    && forall i | 0 <= i < |core| ::
         if 'A' <= core[i] <= 'Z' then r[i] as int == core[i] as int + 32 else r[i] == core[i]
  }

  /** A status is read without the spaces around it and in small letters; a missing or blank one is empty. */
  lemma StatusRead(elements: map<string, string>, key: string, a: string, core: string, b: string)
    requires Blank(a) && Blank(b) && (core == "" || Solid(core))
    ensures key !in elements ==> StatusOf(elements, key) == ""
    ensures key in elements && elements[key] == a + core + b ==> Lowered(core, StatusOf(elements, key))
  {
    if core == "" {
      TrimBlank(a + core + b);
    } else {
      TrimPadded(a, core, b);
    }
  }

  lemma {:induction false} TrimBlank(s: string)
    requires Blank(s)
    ensures TrimSpace(s) == ""
  {
    if s == "" {
    } else {
      TrimBlank(s[1..]);
    }
  }

  method Read12(elements: map<string, string>) returns (st: RuntimeState)
    ensures st == EMPTY_STATE.(lessonStatus := StatusOf(elements, "cmi.core.lesson_status"),
                               scoreRaw := ScoreOf(elements, "cmi.core.score.raw"),
                               scoreMin := ScoreOf(elements, "cmi.core.score.min"),
                               scoreMax := ScoreOf(elements, "cmi.core.score.max"),
                               sessionSeconds := SecondsOf(Version12, elements),
                               location := Element(elements, "cmi.core.lesson_location").GetOr(""),
                               exit := Element(elements, "cmi.core.exit").GetOr(""))
  {
    st := EMPTY_STATE;
    NothingReported();
    if "cmi.core.lesson_status" in elements {
      st := st.(lessonStatus := NormStatus(elements["cmi.core.lesson_status"]));
    }
    st := st.(scoreRaw := ScoreOf(elements, "cmi.core.score.raw"));
    st := st.(scoreMin := ScoreOf(elements, "cmi.core.score.min"));
    st := st.(scoreMax := ScoreOf(elements, "cmi.core.score.max"));
    if "cmi.core.session_time" in elements {
      var seconds := Timespan12(elements["cmi.core.session_time"]);
      if seconds.Some? {
        st := st.(sessionSeconds := seconds.value);
      }
    }
    if "cmi.core.lesson_location" in elements {
      st := st.(location := elements["cmi.core.lesson_location"]);
    }
    if "cmi.core.exit" in elements {
      st := st.(exit := elements["cmi.core.exit"]);
    }
  }

  method Read2004(elements: map<string, string>) returns (st: RuntimeState)
    ensures
      var completion, success := StatusOf(elements, "cmi.completion_status"), StatusOf(elements, "cmi.success_status");
      st == EMPTY_STATE.(lessonStatus := DeriveLessonStatus(completion, success),
                         completionStatus := completion, successStatus := success,
                         scoreRaw := ScoreOf(elements, "cmi.score.raw"),
                         scoreMin := ScoreOf(elements, "cmi.score.min"),
                         scoreMax := ScoreOf(elements, "cmi.score.max"),
                         scoreScaled := ScoreOf(elements, "cmi.score.scaled"),
                         sessionSeconds := SecondsOf(Version2004, elements),
                         location := Element(elements, "cmi.location").GetOr(""),
                         exit := Element(elements, "cmi.exit").GetOr(""))
  {
    st := EMPTY_STATE;
    NothingReported();
    if "cmi.completion_status" in elements {
      st := st.(completionStatus := NormStatus(elements["cmi.completion_status"]));
    }
    if "cmi.success_status" in elements {
      st := st.(successStatus := NormStatus(elements["cmi.success_status"]));
    }
    st := st.(scoreRaw := ScoreOf(elements, "cmi.score.raw"));
    st := st.(scoreMin := ScoreOf(elements, "cmi.score.min"));
    st := st.(scoreMax := ScoreOf(elements, "cmi.score.max"));
    st := st.(scoreScaled := ScoreOf(elements, "cmi.score.scaled"));
    if "cmi.session_time" in elements {
      var seconds := ParseDuration2004(elements["cmi.session_time"]);
      if seconds.Some? {
        st := st.(sessionSeconds := seconds.value);
      }
    }
    if "cmi.location" in elements {
      st := st.(location := elements["cmi.location"]);
    }
    if "cmi.exit" in elements {
      st := st.(exit := elements["cmi.exit"]);
    }
    st := st.(lessonStatus := DeriveLessonStatus(st.completionStatus, st.successStatus));
  }

  /** What is read of an element that is not there. */
  lemma NothingReported()
    ensures NormStatus("") == "" && Timespan12("") == None && Duration2004("") == None
  {
    assert Split("", ':') == [""];
  }

  // ----- What a commit stores -----

  /** What is reported comes each from its own element; in 2004 the lesson status follows from the two others. */
  ghost predicate Reported(version: Version, elements: map<string, string>, t: ScormAttempts.Tracking) {
    && t.elements == elements
    && t.suspendData == Element(elements, "cmi.suspend_data").GetOr("")
    && (version == Version12 ==>
          && t.lessonStatus == StatusOf(elements, "cmi.core.lesson_status")
          && t.completionStatus == "" && t.successStatus == "" && t.scoreScaled == None
          && t.scoreRaw == ScoreOf(elements, "cmi.core.score.raw")
          && t.scoreMin == ScoreOf(elements, "cmi.core.score.min")
          && t.scoreMax == ScoreOf(elements, "cmi.core.score.max")
          && t.location == Element(elements, "cmi.core.lesson_location").GetOr(""))
    && (version == Version2004 ==>
          && StatusFollows(t.completionStatus, t.successStatus, t.lessonStatus)
          && t.completionStatus == StatusOf(elements, "cmi.completion_status")
          && t.successStatus == StatusOf(elements, "cmi.success_status")
          && t.scoreRaw == ScoreOf(elements, "cmi.score.raw")
          && t.scoreMin == ScoreOf(elements, "cmi.score.min")
          && t.scoreMax == ScoreOf(elements, "cmi.score.max")
          && t.scoreScaled == ScoreOf(elements, "cmi.score.scaled")
          && t.location == Element(elements, "cmi.location").GetOr(""))
  }

  /**
   * The elements a package commits go on top of those stored before; what is
   * written is a summary of them all. The write is terminal exactly when the
   * learner is done by the status it stores, or the package terminated.
   */
  method UpdateOf(version: Version, stored: map<string, string>, elements: map<string, string>, terminated: bool)
    returns (u: ScormAttempts.Update)
    ensures u.isComplete <==> terminated || Over(u.tracking.lessonStatus)
    ensures u.session == SecondsOf(version, stored + elements)
    ensures Reported(version, stored + elements, u.tracking)
    ensures forall key | key in elements :: key in u.tracking.elements && u.tracking.elements[key] == elements[key]
    ensures forall key | key in stored && key !in elements :: Element(u.tracking.elements, key) == Element(stored, key)
  {
    var merged := stored + elements;
    var st := Summarize(version, merged);
    u := ScormAttempts.Update(
      ScormAttempts.Tracking(st.lessonStatus, st.completionStatus, st.successStatus, st.scoreRaw, st.scoreMin, st.scoreMax,
                             st.scoreScaled, st.location, st.suspendData, merged),
      st.sessionSeconds, st.complete || terminated);
  }

  // ----- Accepted and recorded scores -----

  /** Like strconv.ParseFloat with every spelling it knows, the parser takes no text with a space at either end. */
  ghost predicate Tight<N(!new)>(parse: string -> Option<N>) {
    forall v :: parse(v).Some? ==> Solid(v)
  }

  /**
   * Validation trims what it parses and recording does not. So, whatever the
   * numbers, an accepted score is recorded exactly when it was written without
   * spaces around it, and then as the number that was accepted.
   */
  lemma ScoreRecordedIff<N(!new)>(v: string, parse: string -> Option<N>)
    requires Tight(parse) && parse(TrimSpace(v)).Some?
    ensures parse(v).Some? <==> TrimSpace(v) == v
    ensures parse(v).Some? ==> parse(v) == parse(TrimSpace(v))
  {
    if parse(v).Some? {
      assert Solid(v);
      assert TrimSpace(v) == v;
    }
  }

  /** A score is accepted by trimming it first. */
  predicate AcceptedScore(v: string, min: real, max: real) {
    var f := ParseFloat(TrimSpace(v));
    f.Some? && min <= f.value <= max
  }

  lemma FloatSolid(v: string)
    requires ParseFloat(v).Some?
    ensures Solid(v)
  {
    FloatChars(v);
  }

  /** A decimal is recorded as what it denotes, sign and fraction included; no element, no score. */
  lemma ScoreRead(elements: map<string, string>, key: string, n: Decimals)
    requires WellWritten(n)
    ensures key !in elements ==> ScoreOf(elements, key) == None
    ensures key in elements && elements[key] == DecimalText(n) ==>
              ScoreOf(elements, key).Some? && ScoreOf(elements, key).value == DecimalValue(n)
  {
    DecimalRead(n);
  }

  /** The session time is read from its element; without one it is nothing. */
  lemma SessionTimeRead(elements: map<string, string>, d: string, h: string, m: string, s: string)
    requires AllDigits(d) && d != [] && AllDigits(h) && h != [] && AllDigits(m) && m != [] && AllDigits(s) && s != []
    ensures "cmi.core.session_time" !in elements ==> SecondsOf(Version12, elements) == 0
    ensures "cmi.session_time" !in elements ==> SecondsOf(Version2004, elements) == 0
    ensures Value(m) <= 59 && Value(s) <= 59 && Element(elements, "cmi.core.session_time") == Some(TimespanText(h, m, s)) ==>
              SecondsOf(Version12, elements) == Value(h) * 3600 + Value(m) * 60 + Value(s)
    ensures Element(elements, "cmi.session_time") == Some(Written(d, h, m, s)) ==>
              SecondsOf(Version2004, elements) == Value(d) * 86400 + Value(h) * 3600 + Value(m) * 60 + Value(s)
  {
    NothingReported();
    DigitsReadBack(d, h, m, s);
    WrittenTimespanReads(h, m, s, "");
  }

  /** So for decimals. */
  lemma AcceptedScoreRecordedIff(elements: map<string, string>, key: string, min: real, max: real)
    requires key in elements && AcceptedScore(elements[key], min, max)
    ensures ScoreOf(elements, key).Some? <==> TrimSpace(elements[key]) == elements[key]
    ensures ScoreOf(elements, key).Some? ==> min <= ScoreOf(elements, key).value <= max
  {
    var v := elements[key];
    forall w | ParseFloat(w).Some? ensures Solid(w) {
      FloatSolid(w);
    }
    ScoreRecordedIff(v, ParseFloat);
  }

  /** One that is lost. */
  lemma PaddedScoreLost()
    ensures AcceptedScore(" 88", 0.0, 100.0) && ScoreOf(map["cmi.core.score.raw" := " 88"], "cmi.core.score.raw") == None
  {
    var v := " 88";
    assert v[1..] == "88" && TrimSpace(v) == "88";
    assert Value("88") == 88 by {
      assert "88"[..1] == "8" && "8"[..0] == "";
    }
    IndexOfNone("88", '.');
    assert ParseFloat("88") == Some(88.0);
    assert TrimSpace(v) != v;
    AcceptedScoreRecordedIff(map["cmi.core.score.raw" := v], "cmi.core.score.raw", 0.0, 100.0);
  }
}

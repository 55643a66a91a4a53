/**
 * The course-progress controller: a table of progress records keyed by
 * (userId, courseId), read by two GET handlers and created or merged by one
 * PUT handler.
 *
 * The section merge and the overall-progress calculation live in a helper
 * module that is not part of this model; the store takes them as two
 * uninterpreted functions and nothing here assumes what they compute.
 */
module CourseProgress {
  import opened Common

  datatype ChapterProgress = ChapterProgress(chapterId: string, completed: bool, lastWatched: Option<string>)
  datatype SectionProgress = SectionProgress(sectionId: string, chapters: seq<ChapterProgress>)
  type Sections = seq<SectionProgress>

  /** One stored progress record; the timestamps are opaque ISO strings. */
  datatype ProgressRecord = ProgressRecord(
    userId: string,
    courseId: string,
    enrollmentDate: string,
    overallProgress: real,
    sections: Sections,
    lastAccessedTimestamp: string)

  /** The table's composite key. */
  datatype Key = Key(userId: string, courseId: string)

  /** The error statuses the handlers answer with. */
  datatype Status = BadRequest | Forbidden | NotFound

  datatype Result<T> = Ok(value: T) | Err(status: Status)

  type MergeFn = (Sections, Sections) -> Sections
  type ProgressFn = Sections -> real

  /** `progressData.sections || []`. */
  function OrEmpty(incoming: Option<Sections>): (s: Sections)
    ensures incoming.None? ==> s == []
    ensures incoming.Some? ==> s == incoming.value
  {
    incoming.GetOr([])
  }

  /** Every stored record carries the key it is stored under. */
  ghost predicate KeysMatch(table: map<Key, ProgressRecord>) {
    forall k :: k in table ==> table[k].userId == k.userId && table[k].courseId == k.courseId
  }

  /** The record written for a key that has none yet. */
  function NewRecord(key: Key, incoming: Option<Sections>, now: string): (r: ProgressRecord)
    ensures r.userId == key.userId && r.courseId == key.courseId
    ensures r.overallProgress == 0.0 && r.sections == OrEmpty(incoming)
    ensures r.enrollmentDate == now && r.lastAccessedTimestamp == now
  {
    ProgressRecord(key.userId, key.courseId, now, 0.0, OrEmpty(incoming), now)
  }

  /** The record written over an existing one: merged sections, a fresh access time, progress of the merged sections. */
  function MergedRecord(existing: ProgressRecord, incoming: Option<Sections>, now: string,
                        merge: MergeFn, progress: ProgressFn): (r: ProgressRecord)
    ensures r.sections == merge(existing.sections, OrEmpty(incoming))
    ensures r.overallProgress == progress(r.sections)
    ensures r.lastAccessedTimestamp == now
    ensures r.userId == existing.userId && r.courseId == existing.courseId
    ensures r.enrollmentDate == existing.enrollmentDate
  {
    var merged := merge(existing.sections, OrEmpty(incoming));
    existing.(sections := merged, lastAccessedTimestamp := now, overallProgress := progress(merged))
  }

  /** The table after a successful update of `key`: created or merged there, untouched everywhere else. */
  function Upsert(table: map<Key, ProgressRecord>, key: Key, incoming: Option<Sections>, now: string,
                  merge: MergeFn, progress: ProgressFn): (t: map<Key, ProgressRecord>)
    ensures t.Keys == table.Keys + {key}
    ensures forall k :: k in table && k != key ==> t[k] == table[k]
    ensures key !in table ==> t[key].overallProgress == 0.0 && t[key].sections == OrEmpty(incoming)
    ensures key in table ==> t[key].sections == merge(table[key].sections, OrEmpty(incoming))
    ensures key in table ==> t[key].overallProgress == progress(t[key].sections)
    ensures t[key] == if key in table then MergedRecord(table[key], incoming, now, merge, progress)
                      else NewRecord(key, incoming, now)
  {
    if key in table then table[key := MergedRecord(table[key], incoming, now, merge, progress)]
    else table[key := NewRecord(key, incoming, now)]
  }

  /** The course ids of one user's progress records. */
  function EnrolledCourseIds(table: map<Key, ProgressRecord>, userId: string): (ids: set<string>)
    ensures forall c :: c in ids <==> Key(userId, c) in table
  {
    set k | k in table && k.userId == userId :: k.courseId
  }

  /** The progress table with its two helpers. */
  class ProgressStore {
    var records: map<Key, ProgressRecord>
    const mergeSections: MergeFn
    const calculateOverallProgress: ProgressFn

    ghost predicate Valid()
      reads this
    {
      KeysMatch(records)
    }

    constructor (merge: MergeFn, progress: ProgressFn)
      ensures Valid() && records == map[]
      ensures mergeSections == merge && calculateOverallProgress == progress
    {
      records := map[];
      mergeSections := merge;
      calculateOverallProgress := progress;
    }

    /**
     * GET enrolled courses: 403 unless the authenticated id is the path's
     * user id; otherwise the ids of the courses that user has progress for
     * (the ids the course catalog is then asked for).
     */
    method GetUserEnrolledCourses(authUserId: Option<string>, userId: string) returns (r: Result<set<string>>)
      ensures r.Err? <==> authUserId != Some(userId)
      ensures r.Err? ==> r.status == Forbidden
      ensures r.Ok? ==> r.value == EnrolledCourseIds(records, userId)
      ensures r.Ok? ==> forall c :: c in r.value <==> Key(userId, c) in records
    {
      if authUserId.None? || authUserId.value != userId {
        return Err(Forbidden);
      }
      r := Ok(EnrolledCourseIds(records, userId));
    }

    /**
     * GET one record: 400 on a missing id, 404 on an absent key, else the
     * stored record as it is, which belongs to the requested user and course.
     */
    method GetUserCourseProgress(userId: string, courseId: string) returns (r: Result<ProgressRecord>)
      requires Valid()
      ensures r.Ok? ==> r.value.userId == userId && r.value.courseId == courseId
      ensures userId == "" || courseId == "" ==> r == Err(BadRequest)
      ensures userId != "" && courseId != "" && Key(userId, courseId) !in records ==> r == Err(NotFound)
      ensures userId != "" && courseId != "" && Key(userId, courseId) in records ==>
                r == Ok(records[Key(userId, courseId)])
    {
      if userId == "" || courseId == "" {
        return Err(BadRequest);
      }
      var key := Key(userId, courseId);
      if key !in records {
        return Err(NotFound);
      }
      r := Ok(records[key]);
    }

    /**
     * PUT progress: 400 on a missing id and nothing written; otherwise the
     * record under (userId, courseId) is created (progress 0, the request's
     * sections) or merged in place (merged sections, new access time,
     * progress of the merged sections), and no other key changes.
     */
    method UpdateUserCourseProgress(userId: string, courseId: string, incoming: Option<Sections>, now: string)
      returns (r: Result<ProgressRecord>)
      requires Valid()
      modifies this
      ensures Valid()
      ensures userId == "" || courseId == "" ==> r == Err(BadRequest) && records == old(records)
      ensures userId != "" && courseId != "" ==>
                var key := Key(userId, courseId);
                && records == Upsert(old(records), key, incoming, now, mergeSections, calculateOverallProgress)
                && r == Ok(records[key])
    {
      if userId == "" || courseId == "" {
        return Err(BadRequest);
      }
      var key := Key(userId, courseId);
      if key !in records {
        var created := ProgressRecord(userId, courseId, now, 0.0, OrEmpty(incoming), now);
        records := records[key := created];
        return Ok(created);
      }
      var existing := records[key];
      existing := existing.(sections := mergeSections(existing.sections, OrEmpty(incoming)));
      existing := existing.(lastAccessedTimestamp := now);
      existing := existing.(overallProgress := calculateOverallProgress(existing.sections));
      records := records[key := existing];
      r := Ok(existing);
    }
  }

  /** An update keeps every record stored under its own key. */
  lemma UpsertKeepsKeysMatching(table: map<Key, ProgressRecord>, key: Key, incoming: Option<Sections>, now: string,
                                merge: MergeFn, progress: ProgressFn)
    requires KeysMatch(table)
    ensures KeysMatch(Upsert(table, key, incoming, now, merge, progress))
  {
  }

  /** A first update stores progress 0 even when every incoming chapter is marked completed. */
  lemma CreateIgnoresCompletion(table: map<Key, ProgressRecord>, key: Key, incoming: Sections, now: string,
                                merge: MergeFn, progress: ProgressFn)
    requires key !in table
    requires forall s :: s in incoming ==> forall c :: c in s.chapters ==> c.completed
    ensures Upsert(table, key, Some(incoming), now, merge, progress)[key].overallProgress == 0.0
    ensures Upsert(table, key, Some(incoming), now, merge, progress)[key].sections == incoming
  {
  }

  /**
   * The overall progress after a merge is computed from the merged sections:
   * with a progress function that tells the two apart, it is not the progress
   * of the incoming sections.
   */
  lemma {:induction false} ProgressOfMergedNotIncoming(table: map<Key, ProgressRecord>, key: Key, incoming: Sections,
                                                       now: string, merge: MergeFn, progress: ProgressFn)
    requires key in table
    requires progress(merge(table[key].sections, incoming)) != progress(incoming)
    ensures Upsert(table, key, Some(incoming), now, merge, progress)[key].overallProgress != progress(incoming)
  {
  }

  /** Updates of two different keys commute, whatever time each reads: each touches only its own key. */
  lemma {:induction false} UpsertsOnDistinctKeysCommute(table: map<Key, ProgressRecord>, k1: Key, in1: Option<Sections>,
                                                         now1: string, k2: Key, in2: Option<Sections>, now2: string,
                                                         merge: MergeFn, progress: ProgressFn)
    requires k1 != k2
    ensures Upsert(Upsert(table, k1, in1, now1, merge, progress), k2, in2, now2, merge, progress)
         == Upsert(Upsert(table, k2, in2, now2, merge, progress), k1, in1, now1, merge, progress)
  {
    var t1, t2 := Upsert(table, k1, in1, now1, merge, progress), Upsert(table, k2, in2, now2, merge, progress);
    var a, b := Upsert(t1, k2, in2, now2, merge, progress), Upsert(t2, k1, in1, now1, merge, progress);
    assert (k1 in t2 <==> k1 in table) && (k1 in table ==> t2[k1] == table[k1]);
    assert (k2 in t1 <==> k2 in table) && (k2 in table ==> t1[k2] == table[k2]);
    assert a[k1] == t1[k1] == b[k1];
    assert a[k2] == t2[k2] == b[k2];
    forall k | k in a
      ensures a[k] == b[k]
    {
      if k != k1 && k != k2 {
        assert a[k] == table[k] == b[k];
      }
    }
  }

  /** After an update of (u, c), user u's enrolled courses gain c and no other user's change. */
  lemma {:induction false} UpsertEnrolls(table: map<Key, ProgressRecord>, key: Key, incoming: Option<Sections>, now: string,
                                         merge: MergeFn, progress: ProgressFn, userId: string)
    ensures EnrolledCourseIds(Upsert(table, key, incoming, now, merge, progress), userId)
         == if userId == key.userId then EnrolledCourseIds(table, userId) + {key.courseId}
            else EnrolledCourseIds(table, userId)
  {
    var t := Upsert(table, key, incoming, now, merge, progress);
    var lhs := EnrolledCourseIds(t, userId);
    var rhs := if userId == key.userId then EnrolledCourseIds(table, userId) + {key.courseId}
               else EnrolledCourseIds(table, userId);
    forall c ensures c in lhs <==> c in rhs {
      assert Key(userId, c) in t <==> Key(userId, c) in table || Key(userId, c) == key;
    }
  }
}

/** The scheduler service: a registry of one daily job per user, keyed by
    user id, and the job that drafts a post when it fires. The cron
    library's validation of an expression is the `accepts` parameter;
    timers and firing are not modelled. */
module Scheduler {
  import opened Wrappers
  import Text
  import opened Models
  import opened Store
  import opened Seqs
  import Images
  import Captions
  import Posts

  const DefaultExpression: string := "0 9 * * *"

  /** The registry as a value: each running job's expression, and the keys
      in insertion order (the order a JavaScript `Map` iterates in). */
  datatype Registry = Registry(jobs: map<UserId, string>, order: seq<UserId>)

  ghost predicate WellFormed(r: Registry) {
    Distinct(r.order) && forall u :: u in r.order <==> u in r.jobs
  }

  /** The registry after starting a job: nothing happens when the user
      already has one or the expression is refused. */
  function Started(r: Registry, userId: UserId, expression: string, accepted: bool): (s: Registry)
    requires WellFormed(r)
    ensures WellFormed(s)
    ensures userId in s.jobs <==> userId in r.jobs || accepted
    ensures userId in r.jobs || !accepted ==> s == r
    ensures userId !in r.jobs && accepted ==> s.jobs[userId] == expression && |s.order| == |r.order| + 1
    ensures forall u :: u != userId ==> (u in s.jobs <==> u in r.jobs)
    ensures forall u :: u != userId && u in r.jobs ==> s.jobs[u] == r.jobs[u]
  {
    if userId in r.jobs || !accepted then r
    else Registry(r.jobs[userId := expression], r.order + [userId])
  }

  /** The registry after stopping a user's job, if there is one. */
  function Stopped(r: Registry, userId: UserId): (s: Registry)
    requires WellFormed(r)
    ensures WellFormed(s)
    ensures userId !in s.jobs
    ensures userId !in r.jobs ==> s == r
    ensures forall u :: u != userId ==> (u in s.jobs <==> u in r.jobs)
    ensures forall u :: u != userId && u in r.jobs ==> s.jobs[u] == r.jobs[u]
  {
    if userId !in r.jobs then r
    else
      RemoveDistinct(r.order, userId);
      Registry(r.jobs - {userId}, Remove(r.order, userId))
  }

  /** Two starts leave the job of the first. */
  lemma StartTwice(r: Registry, userId: UserId, e1: string, a1: bool, e2: string, a2: bool)
    requires WellFormed(r) && a1
    ensures Started(Started(r, userId, e1, a1), userId, e2, a2) == Started(r, userId, e1, a1)
  {
  }

  /** Starting a new job and stopping it gives back the registry. */
  lemma StartThenStop(r: Registry, userId: UserId, expression: string, accepted: bool)
    requires WellFormed(r) && userId !in r.jobs
    ensures Stopped(Started(r, userId, expression, accepted), userId) == r
  {
    if accepted {
      RemoveAppendFresh(r.order, userId);
      assert r.jobs[userId := expression] - {userId} == r.jobs;
    }
  }

  /** Stopping twice is stopping once. */
  lemma StopTwice(r: Registry, userId: UserId)
    requires WellFormed(r)
    ensures Stopped(Stopped(r, userId), userId) == Stopped(r, userId)
  {
  }

  /** `_convertTimeToExpression`: split on ':', read each part with
      `Number`, print minutes then hours; a missing minutes part prints as
      `undefined`. Only a null time throws, which gives the default. */
  function ConvertTimeToExpression(time: Option<string>): (e: string)
    ensures time.None? ==> e == DefaultExpression
  {
    match time
    case None => DefaultExpression
    case Some(s) =>
      var parts := Text.Split(s, ':');
      var hours := Text.NumberToString(Text.ToNumber(parts[0]));
      var minutes := if |parts| > 1 then Text.NumberToString(Text.ToNumber(parts[1])) else "undefined";
      minutes + " " + hours + " * * *"
  }

  /** Two runs of digits around a colon become minutes and hours, each
      printed without leading zeros. */
  lemma ConvertDigits(h: string, m: string)
    requires h != [] && m != [] && Text.AllDigits(h) && Text.AllDigits(m)
    ensures ConvertTimeToExpression(Some(h + ":" + m))
         == Text.NatToString(Text.DigitsValue(m)) + " " + Text.NatToString(Text.DigitsValue(h)) + " * * *"
  {
    assert ':' !in h by {
      forall i | 0 <= i < |h| ensures h[i] != ':' {
        assert Text.IsDigit(h[i]);
      }
    }
    assert ':' !in m by {
      forall i | 0 <= i < |m| ensures m[i] != ':' {
        assert Text.IsDigit(m[i]);
      }
    }
    Text.SplitAfter(h, m, ':');
    Text.SplitWhole(m, ':');
    assert Text.Split(h + ":" + m, ':') == [h, m];
    Text.NumberOfDigits(h);
    Text.NumberOfDigits(m);
  }

  /** The value of a two-digit string. */
  lemma TwoDigits(s: string)
    requires |s| == 2 && Text.AllDigits(s)
    ensures Text.DigitsValue(s) == 10 * (s[0] as int - '0' as int) + (s[1] as int - '0' as int)
  {
    assert s[..1][..0] == [];
    assert Text.DigitsValue(s[..1]) == s[0] as int - '0' as int;
  }

  /** The expression text, spelled out. */
  lemma ExpressionText(minutes: string, hours: string, text: string)
    requires text == minutes + " " + hours + " * * *"
    ensures minutes == "5" && hours == "9" ==> text == "5 9 * * *"
    ensures minutes == "undefined" && hours == "NaN" ==> text == "undefined NaN * * *"
  {
  }

  /** Hour 9 and minute 5, however many leading zeros they carry. */
  lemma ConvertNineFive(h: string, m: string)
    requires h != [] && m != [] && Text.AllDigits(h) && Text.AllDigits(m)
    requires Text.DigitsValue(h) == 9 && Text.DigitsValue(m) == 5
    ensures ConvertTimeToExpression(Some(h + ":" + m)) == "5 9 * * *"
  {
    ConvertDigits(h, m);
    var minutes, hours := Text.NatToString(5), Text.NatToString(9);
    assert minutes == "5" && hours == "9";
    ExpressionText(minutes, hours, ConvertTimeToExpression(Some(h + ":" + m)));
  }

  /** "09:05" fires at minute 5 of hour 9. */
  lemma ConvertNineOhFive(time: string)
    requires time == "09:05"
    ensures ConvertTimeToExpression(Some(time)) == "5 9 * * *"
  {
    var h, m := time[..2], time[3..];
    assert time == h + ":" + m;
    TwoDigits(h);
    TwoDigits(m);
    ConvertNineFive(h, m);
  }

  /** A malformed time does not throw, so it does not get the default: it
      becomes an expression the cron library then refuses. */
  lemma ConvertMalformed(time: string)
    requires time == "abc"
    ensures ConvertTimeToExpression(Some(time)) == "undefined NaN * * *"
  {
    assert ':' !in time;
    Text.SplitWhole(time, ':');
    assert !Text.IsSpace(time[0]) && !Text.IsSpace(time[|time| - 1]);
    assert Text.TrimStart(time) == time;
    assert Text.TrimEnd(time) == time;
    assert !Text.IsDigit(time[0]) && time[0] != '+' && time[0] != '-';
    assert Text.ToNumber(time) == Text.NaN;
    ExpressionText("undefined", Text.NumberToString(Text.NaN), ConvertTimeToExpression(Some(time)));
  }

  datatype SchedulerStatus = SchedulerStatus(userId: UserId, isRunning: bool, totalSchedulers: nat)

  datatype JobInfo = JobInfo(userId: UserId, isRunning: bool)

  /** The users `User.find({ 'preferences.autoPostingEnabled': true })`
      returns, in store order. */
  function AutoPostingUsers(users: seq<User>): (r: seq<User>)
    ensures forall u :: u in r <==> u in users && u.preferences.autoPostingEnabled
  {
    if users == [] then []
    else
      var init := AutoPostingUsers(users[..|users| - 1]);
      var last := users[|users| - 1];
      assert forall u :: u in users <==> u in users[..|users| - 1] || u == last;
      if last.preferences.autoPostingEnabled then init + [last] else init
  }

  /** The registry after starting each user's job in turn, at the
      converted posting time. */
  function StartedAll(r: Registry, users: seq<User>, accepts: string -> bool): (s: Registry)
    requires WellFormed(r)
    ensures WellFormed(s)
  {
    if users == [] then r
    else
      var last := users[|users| - 1];
      var expression := ConvertTimeToExpression(last.preferences.bestTimeToPost);
      Started(StartedAll(r, users[..|users| - 1], accepts), last.id, expression, accepts(expression))
  }

  /** Starting them all keeps the running jobs, gives every user whose
      expression is accepted a job, and adds no job for anyone else. */
  lemma {:induction false} StartedAllCovers(r: Registry, users: seq<User>, accepts: string -> bool)
    requires WellFormed(r)
    ensures var s := StartedAll(r, users, accepts);
      && (forall u :: u in r.jobs ==> u in s.jobs && s.jobs[u] == r.jobs[u])
      && (forall u :: u in users && accepts(ConvertTimeToExpression(u.preferences.bestTimeToPost)) ==> u.id in s.jobs)
      && (forall id :: id in s.jobs ==> id in r.jobs || exists u :: u in users && u.id == id)
  {
    if users != [] {
      var init := users[..|users| - 1];
      var last := users[|users| - 1];
      StartedAllCovers(r, init, accepts);
      assert forall u :: u in users <==> u in init || u == last;
    }
  }

  class SchedulerService {
    var jobs: map<UserId, string>
    var order: seq<UserId>

    ghost predicate Valid()
      reads this
    {
      WellFormed(State())
    }

    function State(): Registry
      reads this
    {
      Registry(jobs, order)
    }

    constructor ()
      ensures Valid() && jobs == map[] && order == []
    {
      jobs := map[];
      order := [];
    }

    /** `startScheduler(userId, scheduleTime = '0 9 * * *')`: a user with a
        job keeps it; an expression the cron library refuses throws, which
        is caught and leaves the registry as it was. */
    method StartScheduler(userId: UserId, scheduleTime: Option<string>, accepts: string -> bool)
      requires Valid()
      modifies this
      ensures Valid()
      ensures State() == Started(old(State()), userId, scheduleTime.GetOr(DefaultExpression),
                                 accepts(scheduleTime.GetOr(DefaultExpression)))
    {
      if userId in jobs {
        return;
      }
      var expression := scheduleTime.GetOr(DefaultExpression);
      if !accepts(expression) {
        return;
      }
      jobs := jobs[userId := expression];
      order := order + [userId];
    }

    /** `stopScheduler`: stop and forget the user's job, if any. */
    method StopScheduler(userId: UserId)
      requires Valid()
      modifies this
      ensures Valid()
      ensures State() == Stopped(old(State()), userId)
    {
      if userId in jobs {
        RemoveDistinct(order, userId);
        jobs := jobs - {userId};
        order := Remove(order, userId);
      }
    }

    /** `getSchedulerStatus`. */
    function GetSchedulerStatus(userId: UserId): (s: SchedulerStatus)
      requires Valid()
      reads this
      ensures s.userId == userId
      ensures s.isRunning <==> userId in jobs
      ensures s.totalSchedulers == |jobs|
    {
      DistinctCount(order, jobs.Keys);
      SchedulerStatus(userId, userId in jobs, |order|)
    }

    /** `getAllSchedulers`: each running job once, in insertion order. */
    function GetAllSchedulers(): (r: seq<JobInfo>)
      requires Valid()
      reads this
      ensures |r| == |jobs|
      ensures forall u :: u in jobs <==> JobInfo(u, true) in r
      ensures forall i :: 0 <= i < |r| ==> r[i].isRunning
      ensures forall i, j :: 0 <= i < j < |r| ==> r[i].userId != r[j].userId
      ensures |r| == |order| && forall i :: 0 <= i < |r| ==> r[i].userId == order[i]
    {
      DistinctCount(order, jobs.Keys);
      var keys := order;
      var r := seq(|keys|, i requires 0 <= i < |keys| => JobInfo(keys[i], true));
      assert forall u :: u in keys ==> JobInfo(u, true) in r by {
        forall u | u in keys ensures JobInfo(u, true) in r {
          var i :| 0 <= i < |keys| && keys[i] == u;
          assert r[i] == JobInfo(u, true);
        }
      }
      r
    }

    /** `startAllSchedulers`: start the job of every auto-posting user, in
        store order, at the user's converted posting time. */
    method StartAllSchedulers(db: Database, accepts: string -> bool)
      requires Valid()
      modifies this
      ensures Valid()
      ensures State() == StartedAll(old(State()), AutoPostingUsers(InIdOrder(db.users, db.nextUserId)), accepts)
    {
      var users := AutoPostingUsers(InIdOrder(db.users, db.nextUserId));
      for i := 0 to |users|
        invariant Valid()
        invariant State() == StartedAll(old(State()), users[..i], accepts)
      {
        assert users[..i + 1][..i] == users[..i];
        var expression := ConvertTimeToExpression(users[i].preferences.bestTimeToPost);
        StartScheduler(users[i].id, Some(expression), accepts);
      }
      assert users[..|users|] == users;
    }
  }

  /** `generateDailyPost`, run when a job fires: nothing for a user that is
      gone or has auto-posting off; otherwise the draft pipeline, with any
      error swallowed. No analytics record is written. */
  method GenerateDailyPost(db: Database, images: Images.ImageDirectory, userId: UserId,
                           complete: string -> Result<Captions.ParsedCaption, string>, now: Time)
    requires db.Valid() && images.Valid()
    modifies db, images
    ensures db.Valid() && images.Valid()
    ensures db.users == old(db.users) && db.nextUserId == old(db.nextUserId) && db.analytics == old(db.analytics)
    ensures images.files == old(images.files)
    ensures userId !in old(db.users) || !old(db.users)[userId].preferences.autoPostingEnabled ==>
      db.posts == old(db.posts) && db.nextPostId == old(db.nextPostId) && images.present == old(images.present)
    ensures userId in old(db.users) && old(db.users)[userId].preferences.autoPostingEnabled ==>
      var user := old(db.users)[userId];
      && images.present == (old(images.present) || Posts.CaptionFor(user, Posts.TopicsFor(user), complete).Ok?)
      && match Posts.DraftOutcome(userId, user, complete, images.imagesDir, old(images.files), now)
         case Err(_) => db.posts == old(db.posts) && db.nextPostId == old(db.nextPostId)
         case Ok(draft) =>
           && db.posts == old(db.posts)[old(db.nextPostId) := draft.(id := old(db.nextPostId))]
           && db.nextPostId == old(db.nextPostId) + 1
  {
    if userId !in db.users || !db.users[userId].preferences.autoPostingEnabled {
      return;
    }
    var _ := Posts.CreateDraft(db, images, userId, db.users[userId], complete, now);
  }
}

/** A model of the per-user prediction cache of the Telegram "mafia prediction" bot.

    A user asks for a prediction; if the store holds an entry for them whose expiry
    time is strictly later than now, the bot sends that entry's image again.
    Otherwise it drops the entry, draws one file name from the image directory and
    stores it with an expiry time a fixed number of seconds after its creation.

    Time is an integer count of seconds. The directory listing and the random draw
    are parameters: `listing` is what the directory holds, `pick` is the index that
    the random choice returns.
 */
module Prediction {

  /** Default of the configured validity period of a prediction, in seconds. */
  const DefaultPredictionDurationInSeconds: int := 10

  type UserId = int

  /** Seconds on the bot's clock. */
  type Time = int

  /** One stored prediction: the image file sent and the moment it stops being valid. */
  datatype PredictionData = PredictionData(fileName: string, expiredAt: Time)

  /** The two captions a photo reply can carry: the reused prediction or a new one. */
  datatype Caption = Reused | Fresh

  datatype Reply = Reply(fileName: string, caption: Caption)

  /** What one request ends in: a photo reply, or the failure of the random choice
      on an empty directory. */
  datatype Outcome = Sent(reply: Reply) | EmptyListing

  /** The in-memory store: at most one prediction per user. */
  type Db = map<UserId, PredictionData>

  /** One "/prediction" command with the environment it meets: the clock when the
      store is read, the clock when the new entry is made, the directory listing and
      the index the random choice returns. */
  datatype Request = Request(userId: UserId, now: Time, createdAt: Time, listing: seq<string>, pick: nat)

  /** The random choice always returns an element of a non-empty listing. */
  predicate WellFormed(req: Request)
  {
    |req.listing| == 0 || req.pick < |req.listing|
  }

  predicate AllWellFormed(reqs: seq<Request>)
  {
    forall i :: 0 <= i < |reqs| ==> WellFormed(reqs[i])
  }

  /** An entry is served again only while its expiry time lies strictly in the future. */
  predicate IsLive(p: PredictionData, now: Time)
  {
    p.expiredAt > now
  }

  /** The user holds an entry that may still be served at `now`. */
  predicate IsHit(db: Db, userId: UserId, now: Time)
  {
    userId in db && IsLive(db[userId], now)
  }

  /** The new store after one request, and what is sent back. */
  datatype StepResult = StepResult(db: Db, outcome: Outcome)

  /** The store after a sequence of requests, and the outcome of each request in turn. */
  datatype RunResult = RunResult(db: Db, outcomes: seq<Outcome>)

  /** The effect of one request on the store, and what is sent back. */
  function Step(db: Db, req: Request, duration: int): (out: StepResult)
    requires WellFormed(req)
    // a reply reuses the stored prediction exactly when one exists that expires strictly after now
    ensures (out.outcome.Sent? && out.outcome.reply.caption == Reused)
            <==> IsHit(db, req.userId, req.now)
    // cache hit: the stored file is sent again and the store is unchanged
    ensures IsHit(db, req.userId, req.now) ==>
              out.db == db && out.outcome == Sent(Reply(db[req.userId].fileName, Reused))
    // cache miss on a non-empty directory: the new entry holds the file sent and
    // expires `duration` seconds after its creation
    ensures !IsHit(db, req.userId, req.now) && |req.listing| > 0 ==>
              req.userId in out.db &&
              out.db[req.userId] == PredictionData(req.listing[req.pick], req.createdAt + duration) &&
              out.outcome == Sent(Reply(out.db[req.userId].fileName, Fresh))
    // cache miss on an empty directory: the old entry is gone and nothing replaces it
    ensures !IsHit(db, req.userId, req.now) && |req.listing| == 0 ==>
              req.userId !in out.db && out.outcome == EmptyListing
    // every file sent is either the stored one or an element of the listing
    ensures out.outcome.Sent? && out.outcome.reply.caption == Fresh ==> out.outcome.reply.fileName in req.listing
    // the entries of all other users are untouched, and at most the caller's key is added
    ensures out.db - {req.userId} == db - {req.userId}
    ensures out.db.Keys <= db.Keys + {req.userId}
  {
    var userId := req.userId;
    if IsHit(db, userId, req.now) then
      StepResult(db, Sent(Reply(db[userId].fileName, Reused)))
    else
      var popped := db - {userId};
      if |req.listing| == 0 then
        StepResult(popped, EmptyListing)
      else
        var newPrediction := PredictionData(req.listing[req.pick], req.createdAt + duration);
        StepResult(popped[userId := newPrediction], Sent(Reply(newPrediction.fileName, Fresh)))
  }

  /** The users that issue at least one of the requests. */
  function UserIds(reqs: seq<Request>): set<UserId>
  {
    if reqs == [] then {} else {reqs[0].userId} + UserIds(reqs[1..])
  }

  /** The requests handled one after another, each to completion, as the bot's
      event loop delivers them. */
  function Run(db: Db, reqs: seq<Request>, duration: int): (out: RunResult)
    requires AllWellFormed(reqs)
    ensures |out.outcomes| == |reqs|
    // users who issue no request keep exactly the entry they had
    ensures out.db - UserIds(reqs) == db - UserIds(reqs)
    // the store only gains keys of users who asked
    ensures out.db.Keys <= db.Keys + UserIds(reqs)
    decreases |reqs|
  {
    if reqs == [] then
      RunResult(db, [])
    else
      var first := Step(db, reqs[0], duration);
      var rest := Run(first.db, reqs[1..], duration);
      var others := UserIds(reqs[1..]);
      assert rest.db - UserIds(reqs) == db - UserIds(reqs) by {
        assert UserIds(reqs) == {reqs[0].userId} + others;
        assert rest.db - UserIds(reqs) == (rest.db - others) - {reqs[0].userId};
        assert db - UserIds(reqs) == (db - {reqs[0].userId}) - others;
        assert first.db - UserIds(reqs) == (first.db - {reqs[0].userId}) - others;
      }
      RunResult(rest.db, [first.outcome] + rest.outcomes)
  }

  /** Every stored prediction names a file of `dir`. */
  ghost predicate StoredNamesIn(db: Db, dir: seq<string>)
  {
    forall u :: u in db ==> db[u].fileName in dir
  }

  /** While the image directory does not change, every file the store names and
      every file sent belongs to it. */
  lemma {:induction false} RunDrawsFromDirectory(db: Db, reqs: seq<Request>, duration: int, dir: seq<string>)
    requires AllWellFormed(reqs)
    requires forall i :: 0 <= i < |reqs| ==> reqs[i].listing == dir
    requires StoredNamesIn(db, dir)
    ensures StoredNamesIn(Run(db, reqs, duration).db, dir)
    ensures forall i :: 0 <= i < |reqs| && Run(db, reqs, duration).outcomes[i].Sent? ==>
              Run(db, reqs, duration).outcomes[i].reply.fileName in dir
    decreases |reqs|
  {
    if reqs != [] {
      var first := Step(db, reqs[0], duration);
      assert AllWellFormed(reqs[1..]) by {
        forall i | 0 <= i < |reqs| - 1 ensures WellFormed(reqs[1..][i]) {
          assert reqs[1..][i] == reqs[i + 1];
        }
      }
      assert StoredNamesIn(first.db, dir) by {
        forall u | u in first.db ensures first.db[u].fileName in dir {
          if u != reqs[0].userId {
            assert u in first.db - {reqs[0].userId};
          }
        }
      }
      RunDrawsFromDirectory(first.db, reqs[1..], duration, dir);
      var out := Run(db, reqs, duration);
      var rest := Run(first.db, reqs[1..], duration);
      assert out.outcomes == [first.outcome] + rest.outcomes;
      forall i | 0 <= i < |reqs| && out.outcomes[i].Sent? ensures out.outcomes[i].reply.fileName in dir {
        if i > 0 {
          assert out.outcomes[i] == rest.outcomes[i - 1];
        }
      }
    }
  }

  /** An entry that stays valid for all of a user's requests in a run is never
      replaced: each of those requests receives its file again with the "reused"
      caption, whatever the other users do meanwhile. */
  lemma {:induction false} RunReusesLiveEntry(db: Db, reqs: seq<Request>, duration: int, u: UserId)
    requires AllWellFormed(reqs)
    requires u in db
    requires forall i :: 0 <= i < |reqs| && reqs[i].userId == u ==> reqs[i].now < db[u].expiredAt
    ensures u in Run(db, reqs, duration).db && Run(db, reqs, duration).db[u] == db[u]
    ensures forall i :: 0 <= i < |reqs| && reqs[i].userId == u ==>
              Run(db, reqs, duration).outcomes[i] == Sent(Reply(db[u].fileName, Reused))
    decreases |reqs|
  {
    if reqs != [] {
      var first := Step(db, reqs[0], duration);
      assert u in first.db && first.db[u] == db[u] by {
        if reqs[0].userId != u {
          assert u in db - {reqs[0].userId};
          assert u in first.db - {reqs[0].userId};
        }
      }
      assert AllWellFormed(reqs[1..]) by {
        forall i | 0 <= i < |reqs| - 1 ensures WellFormed(reqs[1..][i]) {
          assert reqs[1..][i] == reqs[i + 1];
        }
      }
      forall i | 0 <= i < |reqs| - 1 && reqs[1..][i].userId == u
        ensures reqs[1..][i].now < first.db[u].expiredAt
      {
        assert reqs[1..][i] == reqs[i + 1];
      }
      RunReusesLiveEntry(first.db, reqs[1..], duration, u);
      var out := Run(db, reqs, duration);
      var rest := Run(first.db, reqs[1..], duration);
      assert out.outcomes == [first.outcome] + rest.outcomes;
      forall i | 0 <= i < |reqs| && reqs[i].userId == u
        ensures out.outcomes[i] == Sent(Reply(db[u].fileName, Reused))
      {
        if i > 0 {
          assert reqs[1..][i - 1] == reqs[i];
          assert out.outcomes[i] == rest.outcomes[i - 1];
        }
      }
    }
  }

  /** A new prediction stays put until it expires: after a miss served from a
      non-empty directory, every later request of that user before the new expiry
      time, among any requests of other users, receives the same file and leaves
      the entry in place. With a positive duration this covers a request at the
      very moment of creation. */
  lemma StableWithinWindow(db: Db, req: Request, after: Db, later: seq<Request>, duration: int)
    requires WellFormed(req) && AllWellFormed(later)
    requires !IsHit(db, req.userId, req.now) && |req.listing| > 0
    requires after == Step(db, req, duration).db
    requires forall i :: 0 <= i < |later| && later[i].userId == req.userId ==>
               later[i].now < req.createdAt + duration
    ensures req.userId in Run(after, later, duration).db
    ensures Run(after, later, duration).db[req.userId]
              == PredictionData(req.listing[req.pick], req.createdAt + duration)
    ensures forall i :: 0 <= i < |later| && later[i].userId == req.userId ==>
              Run(after, later, duration).outcomes[i] == Sent(Reply(req.listing[req.pick], Reused))
  {
    RunReusesLiveEntry(after, later, duration, req.userId);
  }

  /** The process-wide store of predictions together with the configured duration. */
  class PredictionStore {
    var db: Db
    const duration: int

    /** The store starts empty when the process starts. */
    constructor (durationInSeconds: int)
      ensures db == map[] && duration == durationInSeconds
    {
      db := map[];
      duration := durationInSeconds;
    }

    /** The store as the bot starts it when the duration is not configured. */
    constructor Default()
      ensures db == map[] && duration == DefaultPredictionDurationInSeconds
    {
      db := map[];
      duration := DefaultPredictionDurationInSeconds;
    }

    /** Handles one "/prediction" command of `userId`: `now` is the clock read for the
        expiry check, `createdAt` the clock read when a new entry is made. */
    method ChoosePrediction(userId: UserId, now: Time, createdAt: Time, listing: seq<string>, pick: nat)
      returns (outcome: Outcome)
      requires |listing| == 0 || pick < |listing|
      modifies this
      ensures StepResult(db, outcome) == Step(old(db), Request(userId, now, createdAt, listing, pick), duration)
      ensures db - {userId} == old(db) - {userId}
    {
      if IsHit(db, userId, now) {
        outcome := Sent(Reply(db[userId].fileName, Reused));
      } else {
        db := db - {userId};
        if |listing| == 0 {
          outcome := EmptyListing;
        } else {
          var newPrediction := PredictionData(listing[pick], createdAt + duration);
          outcome := Sent(Reply(newPrediction.fileName, Fresh));
          db := db[userId := newPrediction];
        }
      }
    }
  }

  /** Two commands of one user on a freshly started bot: the first draws a file, the
      second, before the first one's expiry, is served that same file again. */
  method TwoRequestsInWindow(userId: UserId, duration: int, now1: Time, createdAt1: Time,
                             now2: Time, createdAt2: Time, listing: seq<string>, pick1: nat, pick2: nat)
    returns (first: Outcome, second: Outcome)
    requires pick1 < |listing| && pick2 < |listing|
    requires now2 < createdAt1 + duration
    ensures first == Sent(Reply(listing[pick1], Fresh))
    ensures second == Sent(Reply(listing[pick1], Reused))
  {
    var store := new PredictionStore(duration);
    first := store.ChoosePrediction(userId, now1, createdAt1, listing, pick1);
    second := store.ChoosePrediction(userId, now2, createdAt2, listing, pick2);
  }
}

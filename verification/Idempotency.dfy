/** Idempotent run creation: webhook triggers and reruns (state/run_triggers.go, state/run_reruns.go).
    A key is a provider event, or an original run with the caller's idempotency key. */
module Idempotency {

  type RunId = string

  datatype RunInfo = RunInfo(repo: string, ref: string, commit: string)

  datatype PullRequest = NoPullRequest | PullRequest(number: int)

  datatype Trigger = Trigger(
    provider: string, eventKey: string, eventType: string,
    repoId: string, repoOwner: string, repoName: string, pr: PullRequest)

  /** What a delivery is identified by. */
  datatype Key = TriggerKey(provider: string, eventKey: string) | RerunKey(original: RunId, key: string)

  datatype TriggerRow = TriggerRow(run: RunId, trigger: Trigger)

  /** The tables runs, run_triggers (unique on its key) and run_reruns (primary key: its key). */
  datatype Book = Book(runs: map<RunId, RunInfo>, triggers: map<Key, TriggerRow>, reruns: map<Key, RunId>)

  datatype Refusal = Invalid | Unknown | Clash

  /** A run, whether this delivery created it, or an error. */
  datatype Answer = Run(id: RunId, info: RunInfo, created: bool) | Refused(why: Refusal)

  datatype Request =
    | Plain(id: RunId, info: RunInfo)
    | FromTrigger(id: RunId, info: RunInfo, trigger: Trigger)
    | FromRerun(id: RunId, original: RunId, key: string)

  predicate ValidInfo(info: RunInfo) {
    info.repo != "" && info.ref != "" && info.commit != ""
  }

  predicate ValidTrigger(t: Trigger) {
    && t.provider != "" && t.eventKey != "" && t.eventType != ""
    && t.repoId != "" && t.repoOwner != "" && t.repoName != ""
  }

  /** run_triggers_pr_number_check */
  predicate ValidPullRequest(t: Trigger) {
    t.pr.PullRequest? ==> t.pr.number > 0
  }

  function KeyOf(t: Trigger): Key { TriggerKey(t.provider, t.eventKey) }

  /** run_id is the primary key of run_triggers. */
  predicate TriggerOf(triggers: map<Key, TriggerRow>, r: RunId) {
    exists k :: k in triggers && triggers[k].run == r
  }

  /** run_reruns_new_run_id_idx */
  predicate RerunTo(reruns: map<Key, RunId>, r: RunId) {
    exists k :: k in reruns && reruns[k] == r
  }

  // ---- The database ----

  class Database {
    var runs: map<RunId, RunInfo>
    var triggers: map<Key, TriggerRow>
    var reruns: map<Key, RunId>

    ghost function View(): Book
      reads this
    {
      Book(runs, triggers, reruns)
    }

    constructor ()
      ensures View() == Book(map[], map[], map[])
    {
      runs, triggers, reruns := map[], map[], map[];
    }

    method InsertRun(id: RunId, info: RunInfo) returns (ok: bool)
      modifies this`runs
      ensures ok == (id !in old(runs))
      ensures runs == if ok then old(runs)[id := info] else old(runs)
    {
      ok := id !in runs;
      if ok { runs := runs[id := info]; }
    }

    method GetRunByTriggerKey(key: Key) returns (answer: Answer)
      ensures key in triggers ==> After(View(), answer) == Existing(View(), triggers[key].run)
    {
      if key !in triggers || triggers[key].run !in runs { return Refused(Unknown); }
      return Run(triggers[key].run, runs[triggers[key].run], false);
    }

    method GetRerunByKey(key: Key) returns (answer: Answer)
      ensures key in reruns ==> After(View(), answer) == Existing(View(), reruns[key])
    {
      if key !in reruns || reruns[key] !in runs { return Refused(Unknown); }
      return Run(reruns[key], runs[reruns[key]], false);
    }

    /** CreateRunWithTrigger: both rows or none; a known key answers with the run it belongs to. */
    method CreateRunWithTrigger(id: RunId, info: RunInfo, trigger: Trigger) returns (answer: Answer)
      requires Consistent(View())
      modifies this
      ensures After(View(), answer) == WithTrigger(old(View()), id, info, trigger)
    {
      if trigger.provider == "" || trigger.eventKey == "" { return Refused(Invalid); }
      if trigger.eventType == "" || trigger.repoId == "" || trigger.repoOwner == "" || trigger.repoName == "" {
        return Refused(Invalid);
      }
      NewRunUnheld(View(), id);
      var before := runs;
      var ok := InsertRun(id, info);
      if !ok { return Refused(Clash); }
      if trigger.pr.PullRequest? && trigger.pr.number <= 0 {
        runs := before;
        return Refused(Invalid);
      }
      var key := KeyOf(trigger);
      if key in triggers || TriggerOf(triggers, id) {
        runs := before;
        answer := GetRunByTriggerKey(key);
        return;
      }
      triggers := triggers[key := TriggerRow(id, trigger)];
      return Run(id, info, true);
    }

    /** CreateRunWithRerun */
    method CreateRunWithRerun(id: RunId, info: RunInfo, original: RunId, key: string) returns (answer: Answer)
      requires Consistent(View())
      modifies this
      ensures After(View(), answer) == WithRerun(old(View()), id, info, original, key)
    {
      if original == "" || key == "" { return Refused(Invalid); }
      NewRunUnheld(View(), id);
      var before := runs;
      var ok := InsertRun(id, info);
      if !ok { return Refused(Clash); }
      var k := RerunKey(original, key);
      if k in reruns || RerunTo(reruns, id) {
        runs := before;
        answer := GetRerunByKey(k);
        return;
      }
      if original !in runs {
        runs := before;
        return Refused(Unknown);
      }
      reruns := reruns[k := id];
      return Run(id, info, true);
    }

    /** Service.CreateRun, CreateRunFromTrigger and RerunRun up to startRun. */
    method Handle(req: Request) returns (answer: Answer)
      requires Consistent(View())
      modifies this
      ensures After(View(), answer) == Answered(old(View()), req)
      ensures Consistent(View())
    {
      DeliverKeeps(View(), req);
      match req {
        case Plain(id, info) =>
          if !ValidInfo(info) { return Refused(Invalid); }
          var ok := InsertRun(id, info);
          return if ok then Run(id, info, true) else Refused(Clash);
        case FromTrigger(id, info, trigger) =>
          if !ValidInfo(info) { return Refused(Invalid); }
          answer := CreateRunWithTrigger(id, info, trigger);
        case FromRerun(id, original, key) =>
          if original == "" || key == "" { return Refused(Invalid); }
          if original !in runs { return Refused(Unknown); }
          answer := CreateRunWithRerun(id, runs[original], original, key);
      }
    }
  }

  // ---- What the transactions compute ----

  datatype Delivered = After(book: Book, answer: Answer)

  /** Key `k` belongs to run `r`. */
  predicate Holds(b: Book, k: Key, r: RunId) {
    (k in b.triggers && b.triggers[k].run == r) || (k in b.reruns && b.reruns[k] == r)
  }

  /** Keys and the runs they belong to correspond one to one. */
  ghost predicate Consistent(b: Book) {
    && (forall k, r :: Holds(b, k, r) ==> r in b.runs)
    && (forall k, m, r :: Holds(b, k, r) && Holds(b, m, r) ==> k == m)
    && (forall k :: k in b.triggers ==> k.TriggerKey?)
    && (forall k :: k in b.reruns ==> k.RerunKey?)
  }

  lemma NewRunUnheld(b: Book, id: RunId)
    requires Consistent(b)
    ensures id !in b.runs ==> !TriggerOf(b.triggers, id) && !RerunTo(b.reruns, id)
  {
    if k :| k in b.triggers && b.triggers[k].run == id { assert Holds(b, k, id); }
    if k :| k in b.reruns && b.reruns[k] == id { assert Holds(b, k, id); }
  }

  /** What a key that is in the book answers; the book stays as it is. */
  function Existing(b: Book, r: RunId): Delivered {
    After(b, if r in b.runs then Run(r, b.runs[r], false) else Refused(Unknown))
  }

  function WithTrigger(b: Book, id: RunId, info: RunInfo, t: Trigger): Delivered {
    if !ValidTrigger(t) then After(b, Refused(Invalid))
    else if id in b.runs then After(b, Refused(Clash))
    else if !ValidPullRequest(t) then After(b, Refused(Invalid))
    else if KeyOf(t) in b.triggers then Existing(b, b.triggers[KeyOf(t)].run)
    else
      After(b.(runs := b.runs[id := info], triggers := b.triggers[KeyOf(t) := TriggerRow(id, t)]),
            Run(id, info, true))
  }

  function WithRerun(b: Book, id: RunId, info: RunInfo, original: RunId, key: string): Delivered {
    if original == "" || key == "" then After(b, Refused(Invalid))
    else if id in b.runs then After(b, Refused(Clash))
    else if RerunKey(original, key) in b.reruns then Existing(b, b.reruns[RerunKey(original, key)])
    else if original !in b.runs && original != id then After(b, Refused(Unknown))
    else
      After(b.(runs := b.runs[id := info], reruns := b.reruns[RerunKey(original, key) := id]), Run(id, info, true))
  }

  function Answered(b: Book, req: Request): Delivered {
    match req
    case Plain(id, info) =>
      if !ValidInfo(info) then After(b, Refused(Invalid))
      else if id in b.runs then After(b, Refused(Clash))
      else After(b.(runs := b.runs[id := info]), Run(id, info, true))
    case FromTrigger(id, info, t) =>
      if !ValidInfo(info) then After(b, Refused(Invalid)) else WithTrigger(b, id, info, t)
    case FromRerun(id, original, key) =>
      if original == "" || key == "" then After(b, Refused(Invalid))
      else if original !in b.runs then After(b, Refused(Unknown))
      else WithRerun(b, id, b.runs[original], original, key)
  }

  predicate Keyed(req: Request) { !req.Plain? }

  function RequestKey(req: Request): Key
    requires Keyed(req)
  {
    match req
    case FromTrigger(_, _, t) => KeyOf(t)
    case FromRerun(_, original, key) => RerunKey(original, key)
  }

  /** The book after a delivery that created run `r` for key `k`, or for no key. */
  ghost predicate Extends(b: Book, b': Book, r: RunId, info: RunInfo, k: Key, keyed: bool) {
    && r !in b.runs && b'.runs == b.runs[r := info]
    && (forall m, q :: Holds(b', m, q) <==> Holds(b, m, q) || (keyed && m == k && q == r))
    && (keyed ==> forall q :: !Holds(b, k, q))
    && (forall m :: m in b'.triggers ==> m in b.triggers || m.TriggerKey?)
    && (forall m :: m in b'.reruns ==> m in b.reruns || m.RerunKey?)
  }

  lemma ExtendsKeeps(b: Book, b': Book, r: RunId, info: RunInfo, k: Key, keyed: bool)
    requires Consistent(b) && Extends(b, b', r, info, k, keyed)
    ensures Consistent(b')
  {
  }

  /** The key of a request, or any key for a plain one. */
  function SomeKey(req: Request): Key {
    if req.Plain? then RerunKey("", "") else RequestKey(req)
  }

  /** A delivery creates its own run and records its key, or it changes nothing: a rolled-back
      duplicate leaves no run row behind. */
  lemma AllOrNothing(b: Book, req: Request)
    requires Consistent(b)
    ensures var b', answer := Answered(b, req).book, Answered(b, req).answer;
      if answer.Run? && answer.created
      then answer.id == req.id && Extends(b, b', req.id, answer.info, SomeKey(req), Keyed(req))
      else b' == b
  {
  }

  lemma DeliverKeeps(b: Book, req: Request)
    requires Consistent(b)
    ensures Consistent(Answered(b, req).book)
  {
    AllOrNothing(b, req);
    var d := Answered(b, req);
    if d.answer.Run? && d.answer.created {
      ExtendsKeeps(b, d.book, req.id, d.answer.info, SomeKey(req), Keyed(req));
    }
  }

  /** An accepted keyed delivery answers with the run its key belongs to from then on. */
  lemma AnswerHolds(b: Book, req: Request)
    requires Consistent(b) && Keyed(req) && Answered(b, req).answer.Run?
    ensures var d := Answered(b, req);
      && Holds(d.book, RequestKey(req), d.answer.id)
      && d.book.runs[d.answer.id] == d.answer.info
      && (d.answer.created <==> forall r :: !Holds(b, RequestKey(req), r))
  {
    AllOrNothing(b, req);
    var d := Answered(b, req);
    if !d.answer.created { assert Holds(b, RequestKey(req), d.answer.id); }
  }

  /** What a delivery asks for can be read off the request itself. */
  predicate WellFormed(req: Request) {
    match req
    case Plain(_, info) => info.repo != "" && info.ref != "" && info.commit != ""
    case FromTrigger(_, info, t) =>
      && info.repo != "" && info.ref != "" && info.commit != ""
      && t.provider != "" && t.eventKey != "" && t.eventType != ""
      && t.repoId != "" && t.repoOwner != "" && t.repoName != ""
      && (t.pr.PullRequest? ==> t.pr.number >= 1)
    case FromRerun(_, original, key) => original != "" && key != ""
  }

  /** Which deliveries are answered with a run, exactly. */
  lemma AcceptedExactly(b: Book, req: Request)
    requires Consistent(b)
    ensures Answered(b, req).answer.Run? <==>
      WellFormed(req) && req.id !in b.runs && (req.FromRerun? ==> req.original in b.runs)
    ensures Answered(b, req).answer.Refused? ==> match Answered(b, req).answer.why
      case Invalid => !WellFormed(req)
      case Unknown => req.FromRerun? && req.original !in b.runs
      case Clash => req.id in b.runs
  {
    if req.FromTrigger? && KeyOf(req.trigger) in b.triggers {
      assert Holds(b, KeyOf(req.trigger), b.triggers[KeyOf(req.trigger)].run);
    }
    if req.FromRerun? && RerunKey(req.original, req.key) in b.reruns {
      assert Holds(b, RerunKey(req.original, req.key), b.reruns[RerunKey(req.original, req.key)]);
    }
  }

  /** What a created run builds: the commit its request names, or the one its original builds. */
  function Asked(b: Book, req: Request): RunInfo
    requires req.FromRerun? ==> req.original in b.runs
  {
    match req
    case Plain(_, info) => info
    case FromTrigger(_, info, _) => info
    case FromRerun(_, original, _) => b.runs[original]
  }

  /** A created run is stored with what was asked for, and its key with the run and the event. */
  lemma CreatedAsAsked(b: Book, req: Request)
    requires Answered(b, req).answer.Run? && Answered(b, req).answer.created
    ensures req.FromRerun? ==> req.original in b.runs
    ensures var b', answer := Answered(b, req).book, Answered(b, req).answer;
      && answer == Run(req.id, Asked(b, req), true) && b'.runs == b.runs[req.id := Asked(b, req)]
      && b'.triggers == (if req.FromTrigger?
           then b.triggers[TriggerKey(req.trigger.provider, req.trigger.eventKey) := TriggerRow(req.id, req.trigger)]
           else b.triggers)
      && b'.reruns == (if req.FromRerun? then b.reruns[RerunKey(req.original, req.key) := req.id] else b.reruns)
  {
  }

  // ---- Any sequence of deliveries ----

  ghost predicate Handles(books: seq<Book>, reqs: seq<Request>, i: nat)
    requires |books| == |reqs| + 1 && i < |reqs|
  {
    books[i + 1] == Answered(books[i], reqs[i]).book
  }

  /** books[i] is the database before reqs[i]. */
  ghost predicate Deliveries(books: seq<Book>, reqs: seq<Request>) {
    && |books| == |reqs| + 1 && books[0] == Book(map[], map[], map[])
    && forall i: nat {:trigger Handles(books, reqs, i)} :: i < |reqs| ==> Handles(books, reqs, i)
  }

  function AnswerTo(books: seq<Book>, reqs: seq<Request>, i: nat): Answer
    requires |books| == |reqs| + 1 && i < |reqs|
  {
    Answered(books[i], reqs[i]).answer
  }

  lemma {:induction false} AlwaysConsistent(books: seq<Book>, reqs: seq<Request>, i: nat)
    requires Deliveries(books, reqs) && i < |books|
    ensures Consistent(books[i])
  {
    if i > 0 {
      AlwaysConsistent(books, reqs, i - 1);
      assert Handles(books, reqs, i - 1);
      DeliverKeeps(books[i - 1], reqs[i - 1]);
    }
  }

  /** A key never changes hands and a run row never goes away. */
  lemma {:induction false} KeyStays(books: seq<Book>, reqs: seq<Request>, k: Key, r: RunId, i: nat, n: nat)
    requires Deliveries(books, reqs) && i <= n < |books| && Holds(books[i], k, r)
    ensures Holds(books[n], k, r) && r in books[i].runs && r in books[n].runs && books[n].runs[r] == books[i].runs[r]
    decreases n
  {
    AlwaysConsistent(books, reqs, i);
    if i < n {
      KeyStays(books, reqs, k, r, i, n - 1);
      AlwaysConsistent(books, reqs, n - 1);
      assert Handles(books, reqs, n - 1);
      AllOrNothing(books[n - 1], reqs[n - 1]);
    }
  }

  /** Two accepted keyed deliveries answer with the same run exactly when their keys are equal. */
  lemma OneRunPerKey(books: seq<Book>, reqs: seq<Request>, i: nat, n: nat)
    requires Deliveries(books, reqs) && i < n < |reqs| && Keyed(reqs[i]) && Keyed(reqs[n])
    requires AnswerTo(books, reqs, i).Run? && AnswerTo(books, reqs, n).Run?
    ensures AnswerTo(books, reqs, i).id == AnswerTo(books, reqs, n).id <==> RequestKey(reqs[i]) == RequestKey(reqs[n])
    ensures RequestKey(reqs[i]) == RequestKey(reqs[n]) ==>
      AnswerTo(books, reqs, i).info == AnswerTo(books, reqs, n).info && !AnswerTo(books, reqs, n).created
  {
    var r, q := AnswerTo(books, reqs, i).id, AnswerTo(books, reqs, n).id;
    AlwaysConsistent(books, reqs, i);
    AlwaysConsistent(books, reqs, n);
    AlwaysConsistent(books, reqs, n + 1);
    assert Handles(books, reqs, i) && Handles(books, reqs, n);
    AnswerHolds(books[i], reqs[i]);
    AnswerHolds(books[n], reqs[n]);
    KeyStays(books, reqs, RequestKey(reqs[i]), r, i + 1, n);
    KeyStays(books, reqs, RequestKey(reqs[i]), r, n, n + 1);
    if RequestKey(reqs[i]) == RequestKey(reqs[n]) { OneHolder(books[n + 1], RequestKey(reqs[i]), r, q); }
  }

  /** A key belongs to one run. */
  lemma OneHolder(b: Book, k: Key, r: RunId, q: RunId)
    requires Consistent(b) && Holds(b, k, r) && Holds(b, k, q)
    ensures r == q
  {
  }

  /** Delivery `i` created run `r`. */
  ghost predicate CreatedBy(books: seq<Book>, reqs: seq<Request>, i: nat, r: RunId)
    requires |books| == |reqs| + 1 && i < |reqs|
  {
    AnswerTo(books, reqs, i).Run? && AnswerTo(books, reqs, i).created && AnswerTo(books, reqs, i).id == r
  }

  /** The run rows are exactly the runs that some delivery reported as created: none is left behind
      by a duplicate, a validation error or a clash, and none is lost. */
  lemma {:induction false} NoOrphanRun(books: seq<Book>, reqs: seq<Request>, n: nat, r: RunId)
    requires Deliveries(books, reqs) && n < |books|
    ensures r in books[n].runs <==> exists i: nat :: i < n && CreatedBy(books, reqs, i, r)
  {
    if n > 0 {
      NoOrphanRun(books, reqs, n - 1, r);
      AlwaysConsistent(books, reqs, n - 1);
      assert Handles(books, reqs, n - 1);
      AllOrNothing(books[n - 1], reqs[n - 1]);
      if r in books[n].runs && r !in books[n - 1].runs { assert CreatedBy(books, reqs, n - 1, r); }
      if i: nat :| i < n && CreatedBy(books, reqs, i, r) {
        if i < n - 1 { assert r in books[n - 1].runs; }
      }
    }
  }

  /** No run is reported as created twice. */
  lemma CreatedOnce(books: seq<Book>, reqs: seq<Request>, i: nat, n: nat, r: RunId)
    requires Deliveries(books, reqs) && i < |reqs| && n < |reqs|
    requires CreatedBy(books, reqs, i, r) && CreatedBy(books, reqs, n, r)
    ensures i == n
  {
    if i < n { NotCreatedAgain(books, reqs, i, n, r); }
    if n < i { NotCreatedAgain(books, reqs, n, i, r); }
  }

  lemma NotCreatedAgain(books: seq<Book>, reqs: seq<Request>, i: nat, n: nat, r: RunId)
    requires Deliveries(books, reqs) && i < n < |reqs| && CreatedBy(books, reqs, i, r)
    ensures !CreatedBy(books, reqs, n, r)
  {
    NoOrphanRun(books, reqs, n, r);
    AlwaysConsistent(books, reqs, n);
    AllOrNothing(books[n], reqs[n]);
  }

  // ---- What the runs build ----

  /** The run of a rerun key builds what its original builds. */
  predicate Copies(b: Book, k: Key) {
    k in b.reruns && k.RerunKey? && k.original in b.runs && b.reruns[k] in b.runs && b.runs[b.reruns[k]] == b.runs[k.original]
  }

  lemma {:induction false} AlwaysCopies(books: seq<Book>, reqs: seq<Request>, n: nat, k: Key)
    requires Deliveries(books, reqs) && n < |books| && k in books[n].reruns
    ensures Copies(books[n], k)
  {
    if n > 0 {
      AlwaysConsistent(books, reqs, n - 1);
      AlwaysConsistent(books, reqs, n);
      assert Handles(books, reqs, n - 1);
      AllOrNothing(books[n - 1], reqs[n - 1]);
      var d := Answered(books[n - 1], reqs[n - 1]);
      if d.answer.Run? && d.answer.created { CreatedAsAsked(books[n - 1], reqs[n - 1]); }
      if k in books[n - 1].reruns { AlwaysCopies(books, reqs, n - 1, k); }
    }
  }

  /** `r` is a rerun of `q`. */
  ghost predicate RerunOf(b: Book, q: RunId, r: RunId) {
    exists key :: RerunKey(q, key) in b.reruns && b.reruns[RerunKey(q, key)] == r
  }

  /** Each run of the line is a rerun of the one before it. */
  ghost predicate Line(b: Book, line: seq<RunId>) {
    line != [] && line[0] in b.runs && forall i :: 0 < i < |line| ==> RerunOf(b, line[i - 1], line[i])
  }

  /** However often a run is rerun, and rerun again, the same commit of the same repository is built. */
  lemma {:induction false} RerunsBuildTheSame(books: seq<Book>, reqs: seq<Request>, n: nat, line: seq<RunId>, i: nat)
    requires Deliveries(books, reqs) && n < |books| && Line(books[n], line) && i < |line|
    ensures line[i] in books[n].runs && books[n].runs[line[i]] == books[n].runs[line[0]]
  {
    if i > 0 {
      RerunsBuildTheSame(books, reqs, n, line, i - 1);
      assert RerunOf(books[n], line[i - 1], line[i]);
      var key :| RerunKey(line[i - 1], key) in books[n].reruns && books[n].reruns[RerunKey(line[i - 1], key)] == line[i];
      AlwaysCopies(books, reqs, n, RerunKey(line[i - 1], key));
    }
  }

  /** A rerun request, first or repeated, is answered with a run that builds what the original builds. */
  lemma RerunAnswersOriginal(books: seq<Book>, reqs: seq<Request>, n: nat)
    requires Deliveries(books, reqs) && n < |reqs| && reqs[n].FromRerun? && AnswerTo(books, reqs, n).Run?
    ensures reqs[n].original in books[n].runs && AnswerTo(books, reqs, n).info == books[n].runs[reqs[n].original]
    ensures RerunOf(books[n + 1], reqs[n].original, AnswerTo(books, reqs, n).id)
  {
    var b, k := books[n], RerunKey(reqs[n].original, reqs[n].key);
    AlwaysConsistent(books, reqs, n);
    assert Handles(books, reqs, n);
    AcceptedExactly(b, reqs[n]);
    AllOrNothing(b, reqs[n]);
    if AnswerTo(books, reqs, n).created {
      CreatedAsAsked(b, reqs[n]);
    } else {
      AlwaysCopies(books, reqs, n, k);
    }
    assert k in books[n + 1].reruns && books[n + 1].reruns[k] == AnswerTo(books, reqs, n).id;
  }

  /** A trigger's row keeps the event that created the run, and the run what that event asked for. */
  lemma TriggerRowStays(books: seq<Book>, reqs: seq<Request>, i: nat, n: nat)
    requires Deliveries(books, reqs) && i < n < |books| && reqs[i].FromTrigger? && CreatedBy(books, reqs, i, reqs[i].id)
    ensures var k := TriggerKey(reqs[i].trigger.provider, reqs[i].trigger.eventKey);
      && k in books[n].triggers && books[n].triggers[k] == TriggerRow(reqs[i].id, reqs[i].trigger)
      && reqs[i].id in books[n].runs && books[n].runs[reqs[i].id] == reqs[i].info
  {
    var k := TriggerKey(reqs[i].trigger.provider, reqs[i].trigger.eventKey);
    assert Handles(books, reqs, i);
    AlwaysConsistent(books, reqs, i);
    CreatedAsAsked(books[i], reqs[i]);
    TriggerRowKept(books, reqs, k, i + 1, n);
    KeyStays(books, reqs, k, reqs[i].id, i + 1, n);
  }

  lemma {:induction false} TriggerRowKept(books: seq<Book>, reqs: seq<Request>, k: Key, i: nat, n: nat)
    requires Deliveries(books, reqs) && i <= n < |books| && k in books[i].triggers
    ensures k in books[n].triggers && books[n].triggers[k] == books[i].triggers[k]
    decreases n
  {
    if i < n {
      TriggerRowKept(books, reqs, k, i, n - 1);
      assert Handles(books, reqs, n - 1);
      AlwaysConsistent(books, reqs, n - 1);
      var d := Answered(books[n - 1], reqs[n - 1]);
      AllOrNothing(books[n - 1], reqs[n - 1]);
      if d.answer.Run? && d.answer.created {
        CreatedAsAsked(books[n - 1], reqs[n - 1]);
        if reqs[n - 1].FromTrigger? && k == KeyOf(reqs[n - 1].trigger) {
          assert Holds(books[n - 1], k, books[n - 1].triggers[k].run);
        }
      }
    }
  }

  /** Two deliveries ask for the same run: the same event of the same provider, or the same original
      under the same caller's key. A trigger and a rerun never do. */
  predicate SameDemand(x: Request, y: Request) {
    || (x.FromTrigger? && y.FromTrigger?
        && x.trigger.provider == y.trigger.provider && x.trigger.eventKey == y.trigger.eventKey)
    || (x.FromRerun? && y.FromRerun? && x.original == y.original && x.key == y.key)
  }

  /** Accepted deliveries share a run exactly when they ask for the same one. */
  lemma OneRunPerDemand(books: seq<Book>, reqs: seq<Request>, i: nat, n: nat)
    requires Deliveries(books, reqs) && i < n < |reqs| && AnswerTo(books, reqs, i).Run? && AnswerTo(books, reqs, n).Run?
    requires !reqs[i].Plain? && !reqs[n].Plain?
    ensures AnswerTo(books, reqs, i).id == AnswerTo(books, reqs, n).id <==> SameDemand(reqs[i], reqs[n])
    ensures SameDemand(reqs[i], reqs[n]) ==> !AnswerTo(books, reqs, n).created
  {
    OneRunPerKey(books, reqs, i, n);
  }
}

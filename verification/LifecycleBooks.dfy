/** The accounts of the shutdown protocol: who is blocked, who is owed which answer. */
module LifecycleBooks {
  import opened Lifecycle

  function Todo(l: Loop): seq<Req> {
    if l.Applying? || l.DrainApply? then l.todo else []
  }

  function LoopOwed(l: Loop): seq<Verdict> {
    if l.Applying? || l.DrainApply? then l.done else if l.Settling? then l.owed else []
  }

  function ComposerOwed(c: Composer): seq<Verdict> {
    if c.CloseSettle? then c.owed else []
  }

  /** The requests' side of a state: undecided ones in the order the loop will meet
      them, decided ones still owed their answer, and the answers given. */
  datatype Books = Books(
    limit: nat,
    evaluate: (nat, Req) -> Evaluation,
    evaluations: nat,
    next: Req,
    live: set<Req>,
    answers: map<Req, Answer>,
    log: seq<Req>,
    how: map<Req, Decision>,
    upcoming: seq<Req>,
    owed: seq<Verdict>,
    strays: seq<Verdict>,
    panicked: bool)

  function View(s: State): Books {
    Books(s.limit, s.evaluate, s.evaluations, s.next, s.live, s.answers, s.log, s.how, Todo(s.loop) + Queued(s),
          LoopOwed(s.loop), ComposerOwed(s.composer), s.panicked)
  }

  ghost predicate Increasing(s: seq<Req>) {
    forall i, j :: 0 <= i < j < |s| ==> s[i] < s[j]
  }

  ghost predicate Below(s: seq<Req>, n: Req) {
    forall i :: 0 <= i < |s| ==> s[i] < n
  }

  /** Every blocked caller is held in exactly one place. */
  ghost predicate Accounted(b: Books) {
    multiset(b.live) == multiset(b.upcoming) + multiset(Reqs(b.owed)) + multiset(Reqs(b.strays))
  }

  /** Requests are decided in admission order, deferrals included. */
  ghost predicate Ordered(b: Books) {
    Increasing(b.log + b.upcoming) && Below(b.log + b.upcoming, b.next)
  }

  /** A request is blocked or answered, never both, never forgotten. */
  ghost predicate Answered(b: Books) {
    && b.live !! b.answers.Keys
    && (forall r: Req :: r < b.next <==> r in b.live || r in b.answers)
    && |b.live| <= b.limit
  }

  /** What decided `r` came to `e`. */
  ghost predicate Came(b: Books, r: Req, e: Evaluation) {
    r in b.how && b.evaluate(b.how[r].at, r) == e
  }

  /** The decision on `r` is the one that answers `a`. */
  ghost predicate Explains(b: Books, r: Req, a: Answer) {
    r in b.how && a == Outcome(b.evaluate(b.how[r].at, r))
  }

  /** Exactly the log is decided, and only the drain decides on missing content. */
  ghost predicate Decided(b: Books) {
    && (forall r :: r in b.how <==> r in b.log)
    && (forall r :: r in b.how ==> b.how[r].at < b.evaluations && (Came(b, r, Lacking) ==> b.how[r].drained))
  }

  /** Without a panic nobody hears `Shutdown`, and whoever was admitted and hears anything
      hears what deciding it came to. */
  ghost predicate Preserved(b: Books) {
    !b.panicked ==>
      && (forall r :: r in b.answers && b.answers[r] != Saturated ==> Explains(b, r, b.answers[r]))
      && (forall v :: v in b.owed ==> Explains(b, v.req, v.answer))
  }

  /** What was reported applied ran, panic or not. */
  ghost predicate Honest(b: Books) {
    && (forall r :: r in b.answers && b.answers[r] == Applied ==> Came(b, r, Ran))
    && (forall v :: v in b.owed && v.answer == Applied ==> Came(b, v.req, Ran))
  }

  ghost predicate Explained(b: Books) {
    Decided(b) && Preserved(b) && Honest(b)
  }

  ghost predicate Balanced(b: Books) {
    Accounted(b) && Ordered(b) && Answered(b) && Explained(b)
  }

  // ---- sequences of verdicts

  lemma {:induction false} ReqsAll(reqs: seq<Req>, a: Answer)
    ensures Reqs(All(reqs, a)) == reqs
    ensures forall v :: v in All(reqs, a) ==> v.answer == a
  {
    if reqs != [] {
      ReqsAll(reqs[1..], a);
    }
  }

  lemma Regroup<T>(x: T, a: seq<T>, b: seq<T>)
    requires a != [] && a[0] == x
    ensures a + b == [x] + (a[1..] + b)
  {
  }

  lemma ReqsCons(v: Verdict, rest: seq<Verdict>)
    ensures Reqs([v] + rest) == [v.req] + Reqs(rest)
  {
    assert ([v] + rest)[1..] == rest;
  }

  lemma {:induction false} ReqsConcat(a: seq<Verdict>, b: seq<Verdict>)
    ensures Reqs(a + b) == Reqs(a) + Reqs(b)
  {
    if a == [] {
      assert a + b == b;
    } else {
      ReqsConcat(a[1..], b);
      ReqsCons(a[0], a[1..] + b);
      Regroup(a[0], a, b);
      Regroup(a[0].req, [a[0].req] + Reqs(a[1..]), Reqs(b));
    }
  }

  // ---- what may happen to the books

  /** Books that agree on decisions, answers and what is owed explain the same. */
  lemma SameExplained(b: Books, c: Books)
    requires Explained(b)
    requires c.evaluate == b.evaluate && c.evaluations == b.evaluations && c.log == b.log && c.how == b.how
    requires c.answers == b.answers && c.owed == b.owed && c.panicked == b.panicked
    ensures Explained(c)
  {
  }

  function AdmittedBooks(b: Books): Books {
    b.(next := b.next + 1, live := b.live + {b.next}, upcoming := b.upcoming + [b.next])
  }

  lemma AdmitCounts(live: set<Req>, x: Req, upcoming: seq<Req>, rest: multiset<Req>)
    requires multiset(live) == multiset(upcoming) + rest && x !in live
    ensures multiset(live + {x}) == multiset(upcoming + [x]) + rest
  {
    assert multiset(live + {x}) == multiset(live) + multiset{x};
    assert multiset(upcoming + [x]) == multiset(upcoming) + multiset{x};
  }

  lemma AdmitAccounted(b: Books)
    requires Accounted(b) && b.next !in b.live
    ensures Accounted(AdmittedBooks(b))
  {
    AdmitCounts(b.live, b.next, b.upcoming, multiset(Reqs(b.owed)) + multiset(Reqs(b.strays)));
  }

  lemma AdmitAnswered(b: Books)
    requires Answered(b) && |b.live| < b.limit
    ensures Answered(AdmittedBooks(b))
  {
  }

  lemma AdmitOrdered(b: Books)
    requires Ordered(b)
    ensures Ordered(AdmittedBooks(b))
  {
    var c := AdmittedBooks(b);
    assert c.log + c.upcoming == (b.log + b.upcoming) + [b.next];
  }

  lemma Admit(b: Books)
    requires Balanced(b) && |b.live| < b.limit
    ensures Balanced(AdmittedBooks(b))
  {
    AdmitAccounted(b);
    AdmitAnswered(b);
    AdmitOrdered(b);
    SameExplained(b, AdmittedBooks(b));
  }

  function RefusedBooks(b: Books, a: Answer): Books {
    b.(next := b.next + 1, answers := b.answers[b.next := a])
  }

  lemma RefuseOrder(b: Books, a: Answer)
    requires Accounted(b) && Ordered(b) && Answered(b)
    ensures Accounted(RefusedBooks(b, a)) && Ordered(RefusedBooks(b, a)) && Answered(RefusedBooks(b, a))
  {
  }

  lemma RefuseExplains(b: Books, a: Answer)
    requires Explained(b) && (a == Saturated || (a == Shutdown && b.panicked))
    ensures Explained(RefusedBooks(b, a))
  {
  }

  lemma Refuse(b: Books, a: Answer)
    requires Balanced(b) && (a == Saturated || (a == Shutdown && b.panicked))
    ensures Balanced(RefusedBooks(b, a))
  {
    RefuseOrder(b, a);
    RefuseExplains(b, a);
  }

  function DecidedBooks(b: Books, r: Req, drained: bool, a: Answer): Books
    requires b.upcoming != []
  {
    b.(log := b.log + [r], how := b.how[r := Decision(b.evaluations, drained)], evaluations := b.evaluations + 1,
       upcoming := b.upcoming[1..], owed := b.owed + [Verdict(r, a)])
  }

  /** The next undecided request is new to the log. */
  lemma FirstIsNew(b: Books)
    requires Ordered(b) && b.upcoming != []
    ensures b.upcoming[0] !in b.log
  {
    var line := b.log + b.upcoming;
    assert line[|b.log|] == b.upcoming[0];
    assert forall i | 0 <= i < |b.log| :: line[i] == b.log[i];
  }

  lemma DecideOrder(b: Books, drained: bool, a: Answer, c: Books)
    requires Accounted(b) && Ordered(b) && b.upcoming != []
    requires c == DecidedBooks(b, b.upcoming[0], drained, a)
    ensures Accounted(c) && Ordered(c)
  {
    var r := b.upcoming[0];
    assert b.upcoming == [r] + c.upcoming;
    ReqsConcat(b.owed, [Verdict(r, a)]);
    assert Reqs([Verdict(r, a)]) == [r];
    assert c.log + c.upcoming == b.log + b.upcoming;
  }

  lemma DecideDecided(b: Books, drained: bool, a: Answer, c: Books)
    requires Decided(b) && b.upcoming != [] && b.upcoming[0] !in b.log
    requires c == DecidedBooks(b, b.upcoming[0], drained, a)
    requires b.evaluate(b.evaluations, b.upcoming[0]) == Lacking ==> drained
    ensures Decided(c)
    ensures forall r :: r in b.how ==> r in c.how && c.how[r] == b.how[r]
    ensures Explains(c, b.upcoming[0], Outcome(b.evaluate(b.evaluations, b.upcoming[0])))
  {
    assert forall x :: x in c.log <==> x in b.log || x == b.upcoming[0];
  }

  lemma DecideExplains(b: Books, drained: bool, a: Answer, c: Books)
    requires Explained(b) && b.upcoming != [] && b.upcoming[0] !in b.log
    requires c == DecidedBooks(b, b.upcoming[0], drained, a)
    requires a == Outcome(b.evaluate(b.evaluations, b.upcoming[0]))
    requires b.evaluate(b.evaluations, b.upcoming[0]) == Lacking ==> drained
    ensures Explained(c)
  {
    DecideDecided(b, drained, a, c);
    assert forall v :: v in c.owed <==> v in b.owed || v == Verdict(b.upcoming[0], a);
  }

  lemma DecideNext(b: Books, drained: bool, a: Answer)
    requires Balanced(b) && b.upcoming != []
    requires a == Outcome(b.evaluate(b.evaluations, b.upcoming[0]))
    requires b.evaluate(b.evaluations, b.upcoming[0]) == Lacking ==> drained
    ensures Balanced(DecidedBooks(b, b.upcoming[0], drained, a))
  {
    var c := DecidedBooks(b, b.upcoming[0], drained, a);
    FirstIsNew(b);
    DecideOrder(b, drained, a, c);
    DecideExplains(b, drained, a, c);
  }

  /** An evaluation that decides nothing. */
  lemma Evaluated(b: Books)
    requires Balanced(b)
    ensures Balanced(b.(evaluations := b.evaluations + 1))
  {
    var c := b.(evaluations := b.evaluations + 1);
    assert Explained(c);
  }

  lemma CompleteAccounted(live: set<Req>, r: Req, rest: multiset<Req>)
    requires multiset(live) == multiset{r} + rest
    ensures multiset(live - {r}) == rest
    ensures r in live
  {
    assert r in multiset(live);
    assert multiset(live - {r}) == multiset(live) - multiset{r};
  }

  function CompletedBooks(b: Books): Books
    requires b.owed != []
  {
    b.(live := b.live - {b.owed[0].req}, answers := b.answers[b.owed[0].req := b.owed[0].answer], owed := b.owed[1..])
  }

  lemma CompleteAnswers(b: Books, c: Books)
    requires Accounted(b) && Answered(b) && b.owed != [] && c == CompletedBooks(b)
    ensures Accounted(c) && Answered(c)
  {
    var v := b.owed[0];
    assert Reqs(b.owed) == [v.req] + Reqs(c.owed);
    CompleteAccounted(b.live, v.req, multiset(c.upcoming) + multiset(Reqs(c.owed)) + multiset(Reqs(c.strays)));
    assert b.live == c.live + {v.req};
    assert |b.live| == |c.live| + 1;
  }

  lemma CompleteExplains(b: Books, c: Books)
    requires Explained(b) && b.owed != [] && c == CompletedBooks(b)
    ensures Explained(c)
  {
    assert b.owed[0] in b.owed;
    assert forall w :: w in c.owed ==> w in b.owed;
  }

  lemma CompleteFirst(b: Books)
    requires Balanced(b) && b.owed != []
    ensures Balanced(CompletedBooks(b))
  {
    CompleteAnswers(b, CompletedBooks(b));
    CompleteExplains(b, CompletedBooks(b));
  }

  lemma DropMiddle(a: seq<Req>, b: seq<Req>, c: seq<Req>, n: Req)
    requires Increasing(a + (b + c)) && Below(a + (b + c), n)
    ensures Increasing(a + c) && Below(a + c, n)
  {
    var whole, part := a + (b + c), a + c;
    assert forall i | 0 <= i < |part| :: part[i] == whole[if i < |a| then i else i + |b|];
  }

  function AbandonedBooks(b: Books, gone: seq<Req>, left: seq<Req>, a: Answer): Books {
    b.(upcoming := left, owed := b.owed + All(gone, a), panicked := true)
  }

  lemma AbandonOrder(b: Books, gone: seq<Req>, left: seq<Req>, a: Answer)
    requires Accounted(b) && Ordered(b) && b.upcoming == gone + left
    ensures Accounted(AbandonedBooks(b, gone, left, a)) && Ordered(AbandonedBooks(b, gone, left, a))
  {
    ReqsAll(gone, a);
    ReqsConcat(b.owed, All(gone, a));
    DropMiddle(b.log, gone, left, b.next);
  }

  lemma AbandonExplains(b: Books, gone: seq<Req>, left: seq<Req>, a: Answer)
    requires Explained(b) && a != Applied
    ensures Explained(AbandonedBooks(b, gone, left, a))
  {
    var c := AbandonedBooks(b, gone, left, a);
    ReqsAll(gone, a);
    assert forall v :: v in c.owed <==> v in b.owed || v in All(gone, a);
  }

  /** A batch guard or a panic close answers undecided requests on the spot. */
  lemma Abandon(b: Books, gone: seq<Req>, left: seq<Req>, a: Answer)
    requires Balanced(b) && b.upcoming == gone + left && a != Applied
    ensures Balanced(AbandonedBooks(b, gone, left, a))
  {
    AbandonOrder(b, gone, left, a);
    AbandonExplains(b, gone, left, a);
  }

  /** Nobody blocked, nothing held anywhere. */
  lemma NothingHeld(b: Books)
    requires Accounted(b) && b.live == {}
    ensures b.upcoming == [] && b.owed == [] && b.strays == []
  {
    assert |multiset(b.live)| == 0;
    assert |multiset(b.upcoming)| == |b.upcoming|;
    assert |multiset(Reqs(b.owed))| == |b.owed|;
    assert |multiset(Reqs(b.strays))| == |b.strays|;
  }
}

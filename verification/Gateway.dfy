/** What routing does to the endpoints: deliveries over bounded inboxes. */
module Gateway {
  import opened Envelopes
  import opened Routing
  import opened GatewayTable
  import Sets

  // ---------------------------------------------------------------------------
  // Deliveries as values
  // ---------------------------------------------------------------------------

  datatype State = State(closed: bool, inbox: seq<Envelope>)

  /** What each endpoint holds. */
  type View = map<Endpoint, State>

  function Room(have: nat): nat
  {
    if have < INBOX_CAP then INBOX_CAP - have else 0
  }

  /** How many of `copies` sends an endpoint takes. */
  function Accepted(s: State, copies: nat): nat
  {
    if s.closed then 0 else if copies <= Room(|s.inbox|) then copies else Room(|s.inbox|)
  }

  function Copies(env: Envelope, n: nat): seq<Envelope>
  {
    seq(n, _ => env)
  }

  /** An endpoint offered `copies` copies of an envelope. */
  function Filled(s: State, env: Envelope, copies: nat): State
  {
    State(s.closed, s.inbox + Copies(env, Accepted(s, copies)))
  }

  /** How often `c` stands among the first `i` targets. */
  function Seen(targets: seq<Endpoint>, i: nat, c: Endpoint): nat
    requires i <= |targets|
  {
    multiset(targets[..i])[c]
  }

  ghost function Delivered(v: View, targets: seq<Endpoint>, i: nat, env: Envelope): View
    requires i <= |targets|
  {
    map c | c in v :: Filled(v[c], env, Seen(targets, i, c))
  }

  /** The `j`-th send fails: the endpoint is closed or earlier copies left no room. */
  predicate Refused(v: View, targets: seq<Endpoint>, j: nat)
    requires j < |targets| && targets[j] in v
  {
    v[targets[j]].closed || Seen(targets, j, targets[j]) >= Room(|v[targets[j]].inbox|)
  }

  ghost predicate Covers(v: View, targets: seq<Endpoint>)
  {
    forall j :: 0 <= j < |targets| ==> targets[j] in v
  }

  ghost predicate NoneRefused(v: View, targets: seq<Endpoint>, i: nat)
    requires Covers(v, targets) && i <= |targets|
  {
    forall j :: 0 <= j < i ==> !Refused(v, targets, j)
  }

  /** The verdict on the first `i` sends is the error of the first that failed, if any did. */
  ghost predicate Verdict(v: View, targets: seq<Endpoint>, i: nat, r: Outcome)
    requires Covers(v, targets) && i <= |targets|
  {
    match r
    case Ok => NoneRefused(v, targets, i)
    case Err(e) => exists j :: 0 <= j < i && FirstRefusal(v, targets, j, e)
  }

  ghost predicate FirstRefusal(v: View, targets: seq<Endpoint>, j: nat, e: Error)
    requires Covers(v, targets) && j < |targets|
  {
    NoneRefused(v, targets, j) && Refused(v, targets, j) && e == if v[targets[j]].closed then Closed else InboxFull
  }

  lemma SeenMore(targets: seq<Endpoint>, i: nat, c: Endpoint)
    requires i < |targets|
    ensures Seen(targets, i + 1, c) == Seen(targets, i, c) + if c == targets[i] then 1 else 0
  {
    assert targets[..i + 1] == targets[..i] + [targets[i]];
  }

  lemma FilledOnce(s: State, env: Envelope, k: nat)
    ensures Filled(s, env, k + 1) ==
            var f := Filled(s, env, k);
            if s.closed || k >= Room(|s.inbox|) then f else State(false, f.inbox + [env])
    ensures !s.closed ==> (k >= Room(|s.inbox|) <==> |Filled(s, env, k).inbox| >= INBOX_CAP)
  {
    assert Copies(env, k) + [env] == Copies(env, k + 1);
  }

  /** Nothing was refused exactly when every target took every copy meant for it. */
  lemma OkMeansAllTaken(v: View, targets: seq<Endpoint>)
    requires Covers(v, targets)
    ensures NoneRefused(v, targets, |targets|) <==>
            forall c :: c in targets ==> Accepted(v[c], multiset(targets)[c]) == multiset(targets)[c]
  {
    assert targets[..|targets|] == targets;
    if NoneRefused(v, targets, |targets|) {
      forall c | c in targets ensures Accepted(v[c], multiset(targets)[c]) == multiset(targets)[c] {
        TakenSoFar(v, targets, |targets|, c);
      }
    } else {
      var j :| 0 <= j < |targets| && Refused(v, targets, j);
      SeenMore(targets, j, targets[j]);
      SeenGrows(targets, j + 1, |targets|, targets[j]);
    }
  }

  lemma {:induction false} SeenGrows(targets: seq<Endpoint>, i: nat, k: nat, c: Endpoint)
    requires i <= k <= |targets|
    ensures Seen(targets, i, c) <= Seen(targets, k, c)
    decreases k
  {
    if i < k {
      SeenGrows(targets, i, k - 1, c);
      SeenMore(targets, k - 1, c);
    }
  }

  lemma {:induction false} TakenSoFar(v: View, targets: seq<Endpoint>, i: nat, c: Endpoint)
    requires Covers(v, targets) && i <= |targets| && NoneRefused(v, targets, i) && c in v
    ensures Seen(targets, i, c) == 0 || (!v[c].closed && Seen(targets, i, c) <= Room(|v[c].inbox|))
  {
    if i > 0 {
      TakenSoFar(v, targets, i - 1, c);
      SeenMore(targets, i - 1, c);
      assert !Refused(v, targets, i - 1);
    }
  }

  // ---------------------------------------------------------------------------
  // The send loop
  // ---------------------------------------------------------------------------

  ghost function ViewOf(targets: seq<Endpoint>): View
    reads targets
  {
    map c | c in targets :: State(c.closed, c.inbox)
  }

  /** The endpoint a send goes to cannot take it. */
  predicate Full(s: State)
  {
    s.closed || |s.inbox| >= INBOX_CAP
  }

  lemma DeliverStep(v: View, targets: seq<Endpoint>, i: nat, env: Envelope)
    requires i < |targets| && targets[i] in v
    ensures var c := targets[i];
            var now := Delivered(v, targets, i, env);
            Delivered(v, targets, i + 1, env) == if Full(now[c]) then now else now[c := State(false, now[c].inbox + [env])]
    ensures Full(Delivered(v, targets, i, env)[targets[i]]) <==> Refused(v, targets, i)
  {
    var c := targets[i];
    hide Filled, Seen, Room;
    FilledOnce(v[c], env, Seen(targets, i, c));
    FilledClosed(v[c], env, Seen(targets, i, c));
    forall d | d in v ensures Seen(targets, i + 1, d) == Seen(targets, i, d) + if d == c then 1 else 0 {
      SeenMore(targets, i, d);
    }
  }

  lemma FilledClosed(s: State, env: Envelope, k: nat)
    ensures Filled(s, env, k).closed == s.closed
  {
  }

  lemma VerdictStep(v: View, targets: seq<Endpoint>, i: nat, r: Outcome)
    requires Covers(v, targets) && i < |targets| && Verdict(v, targets, i, r)
    ensures Verdict(v, targets, i + 1,
              if Refused(v, targets, i) && r.Ok? then Err(if v[targets[i]].closed then Closed else InboxFull) else r)
  {
    hide Refused;
    if r.Ok? && Refused(v, targets, i) {
      assert FirstRefusal(v, targets, i, if v[targets[i]].closed then Closed else InboxFull);
    }
  }

  lemma SendStep(v: View, targets: seq<Endpoint>, i: nat, env: Envelope, r: Outcome)
    requires Covers(v, targets) && i < |targets| && Verdict(v, targets, i, r)
    ensures var c := targets[i];
            var now := Delivered(v, targets, i, env);
            && c in now
            && Delivered(v, targets, i + 1, env) == (if Full(now[c]) then now else now[c := State(false, now[c].inbox + [env])])
            && Verdict(v, targets, i + 1, if Full(now[c]) && r.Ok? then Err(if now[c].closed then Closed else InboxFull) else r)
  {
    hide Verdict, Refused, Full, Filled, Seen;
    DeliverStep(v, targets, i, env);
    VerdictStep(v, targets, i, r);
    FilledClosed(v[targets[i]], env, Seen(targets, i, targets[i]));
  }

  method SendOne(targets: seq<Endpoint>, i: nat, env: Envelope) returns (sent: Outcome)
    requires i < |targets|
    modifies {targets[i]}`inbox
    ensures var now := old(ViewOf(targets));
            var c := targets[i];
            && c in now
            && sent == (if Full(now[c]) then Err(if now[c].closed then Closed else InboxFull) else Ok)
            && ViewOf(targets) == if sent.Ok? then now[c := State(false, now[c].inbox + [env])] else now
  {
    sent := targets[i].Send(env);
  }

  /** Offers the envelope to every target in turn; a failure is remembered and the rest go on. */
  method SendAll(targets: seq<Endpoint>, env: Envelope) returns (r: Outcome)
    modifies targets`inbox
    ensures ViewOf(targets) == Delivered(old(ViewOf(targets)), targets, |targets|, env)
    ensures Verdict(old(ViewOf(targets)), targets, |targets|, r)
  {
    hide *;
    r := Ok;
    var i := 0;
    ghost var v := ViewOf(targets);
    ViewCovers(targets);
    Unsent(v, targets, env);
    while i < |targets|
      invariant i <= |targets|
      invariant ViewOf(targets) == Delivered(v, targets, i, env)
      invariant Verdict(v, targets, i, r)
    {
      SendStep(v, targets, i, env, r);
      var sent := SendOne(targets, i, env);
      if sent.Err? && r.Ok? {
        r := sent;
      }
      i := i + 1;
    }
  }

  lemma ViewCovers(targets: seq<Endpoint>)
    ensures Covers(ViewOf(targets), targets)
  {
  }

  lemma Unsent(v: View, targets: seq<Endpoint>, env: Envelope)
    requires Covers(v, targets)
    ensures Delivered(v, targets, 0, env) == v && Verdict(v, targets, 0, Ok)
  {
    forall c | c in v ensures Filled(v[c], env, Seen(targets, 0, c)) == v[c] {
      assert Seen(targets, 0, c) == 0;
      assert v[c].inbox + Copies(env, 0) == v[c].inbox;
    }
  }
}

/** Feedback freshness: when a channel may be trusted for motion.

    The verdict is defined by looking back over everything observed; the class computes it with five
    fields and never looks back. */
module FeedbackFreshness {

  datatype State = Unknown | Healthy | Warn | Stop | Stabilizing

  /** Nanosecond bounds; the constructor of the class refuses any others. */
  datatype Thresholds = Thresholds(warn: int, stop: int, stable: int) {
    predicate Sensible() { 0 < warn < stop && stable >= 0 }
  }

  datatype Observation = Observation(now: int, feedback: int, valid: bool, fault: bool) {
    predicate Trustworthy() { valid && 0 <= feedback <= now }
  }

  type History = seq<Observation>

  // ---- What one observation says after those before it ----

  /** The latest accepted time. */
  function Clock(h: History): (t: int)
    ensures t >= 0
  {
    if h == [] then 0
    else if h[|h| - 1].now >= Clock(h[..|h| - 1]) then h[|h| - 1].now
    else Clock(h[..|h| - 1])
  }

  predicate Accepted(h: History, k: nat)
    requires k < |h|
  {
    h[k].now >= Clock(h[..k])
  }

  /** The newest stamp of any trustworthy frame, -1 before the first. */
  function Newest(h: History): (t: int)
    ensures t >= -1
  {
    if h == [] then -1
    else
      var o, before := h[|h| - 1], Newest(h[..|h| - 1]);
      if Accepted(h, |h| - 1) && o.Trustworthy() && o.feedback > before then o.feedback else before
  }

  /** A frame that arrived after the deadline of the one before it. */
  predicate Gap(l: Thresholds, h: History, k: nat)
    requires k < |h|
  {
    Newest(h[..k]) >= 0 && h[k].feedback - Newest(h[..k]) >= l.stop
  }

  /** An observation that ends trust at once. */
  predicate Broken(l: Thresholds, h: History, k: nat)
    requires k < |h|
  {
    || !Accepted(h, k) || h[k].fault || !h[k].Trustworthy()
    || Gap(l, h, k) || h[k].now - h[k].feedback >= l.stop
  }

  predicate Clean(l: Thresholds, h: History, k: nat)
    requires k < |h|
  {
    !Broken(l, h, k) && h[k].now - h[k].feedback < l.warn
  }

  // ---- The verdict ----

  /** Observations `i..k` are all clean and span the stable window. */
  ghost predicate CleanRun(l: Thresholds, h: History, i: nat, k: nat)
    requires i <= k < |h|
  {
    (forall m | i <= m <= k :: Clean(l, h, m)) && h[k].now - h[i].now >= l.stable
  }

  ghost predicate HealthyAt(l: Thresholds, h: History, k: nat)
    requires k < |h|
  {
    exists i | 0 <= i <= k :: CleanRun(l, h, i, k)
  }

  /** Trusted since observation `i` proved health: nothing broke trust after it. */
  ghost predicate TrustedSince(l: Thresholds, h: History, i: nat, k: nat)
    requires i <= k < |h|
  {
    HealthyAt(l, h, i) && forall m | i <= m <= k :: !Broken(l, h, m)
  }

  ghost predicate TrustedAt(l: Thresholds, h: History, k: nat)
    requires k < |h|
  {
    exists i | 0 <= i <= k :: TrustedSince(l, h, i, k)
  }

  ghost function Verdict(l: Thresholds, h: History): State {
    if h == [] then Unknown
    else
      var k := |h| - 1;
      if HealthyAt(l, h, k) then Healthy
      else if TrustedAt(l, h, k) then Warn
      else if Clean(l, h, k) then Stabilizing
      else Stop
  }

  // ---- What trust is worth ----

  /** Motion is trusted exactly when health was once proven and nothing has broken it since. */
  lemma TrustIsExact(l: Thresholds, h: History)
    requires h != []
    ensures (Verdict(l, h) == Healthy || Verdict(l, h) == Warn) <==> TrustedAt(l, h, |h| - 1)
  {
    var k := |h| - 1;
    if HealthyAt(l, h, k) {
      var i :| 0 <= i <= k && CleanRun(l, h, i, k);
      assert Clean(l, h, k);
      assert TrustedSince(l, h, k, k);
    }
  }

  lemma NewestGrows(l: Thresholds, h: History, k: nat)
    requires k < |h|
    ensures Newest(h[..k]) <= Newest(h[..k + 1])
    ensures !Broken(l, h, k) ==> h[k].feedback <= Newest(h[..k + 1]) <= h[k].now || Newest(h[..k + 1]) == Newest(h[..k])
    ensures !Broken(l, h, k) ==> h[k].feedback <= Newest(h[..k + 1])
    ensures !Broken(l, h, k) && Newest(h[..k]) >= 0 ==> Newest(h[..k + 1]) - Newest(h[..k]) < l.stop
  {
    assert h[..k + 1][..k] == h[..k];
    assert Accepted(h, k) == Accepted(h[..k + 1], k);
  }

  /** At every trusted moment the newest frame is younger than the stop bound, and, when trust was
      already there before, it is less than the stop bound after the newest frame known then. */
  lemma TrustedFeedbackIsFresh(l: Thresholds, h: History, k: nat)
    requires l.Sensible() && k < |h| && TrustedAt(l, h, k)
    ensures 0 <= Newest(h[..k + 1]) && h[k].now - Newest(h[..k + 1]) < l.stop
    ensures k > 0 && TrustedAt(l, h, k - 1) ==> 0 <= Newest(h[..k]) && Newest(h[..k + 1]) - Newest(h[..k]) < l.stop
  {
    var i :| 0 <= i <= k && TrustedSince(l, h, i, k);
    assert !Broken(l, h, k);
    NewestGrows(l, h, k);
    if k > 0 && TrustedAt(l, h, k - 1) {
      var j :| 0 <= j <= k - 1 && TrustedSince(l, h, j, k - 1);
      assert !Broken(l, h, k - 1);
      NewestGrows(l, h, k - 1);
    }
  }

  /** What was observed later does not change the verdict on an earlier moment. */
  lemma VerdictsStand(l: Thresholds, h: History, t: History, k: nat)
    requires k < |h| <= |t| && h == t[..|h|]
    ensures Clean(l, h, k) == Clean(l, t, k) && Broken(l, h, k) == Broken(l, t, k)
    ensures h[k] == t[k]
  {
    assert h[..k] == t[..k];
  }

  lemma HealthStands(l: Thresholds, h: History, t: History, k: nat)
    requires k < |h| <= |t| && h == t[..|h|]
    ensures HealthyAt(l, h, k) == HealthyAt(l, t, k)
  {
    forall m | 0 <= m <= k ensures Clean(l, h, m) == Clean(l, t, m) && h[m] == t[m] {
      VerdictsStand(l, h, t, m);
    }
    if HealthyAt(l, h, k) {
      var i :| 0 <= i <= k && CleanRun(l, h, i, k);
      assert CleanRun(l, t, i, k);
    }
    if HealthyAt(l, t, k) {
      var i :| 0 <= i <= k && CleanRun(l, t, i, k);
      assert CleanRun(l, h, i, k);
    }
  }

  lemma TrustStands(l: Thresholds, h: History, t: History, k: nat)
    requires k < |h| <= |t| && h == t[..|h|]
    ensures TrustedAt(l, h, k) == TrustedAt(l, t, k)
  {
    forall m | 0 <= m <= k ensures Broken(l, h, m) == Broken(l, t, m) && HealthyAt(l, h, m) == HealthyAt(l, t, m) {
      VerdictsStand(l, h, t, m);
      HealthStands(l, h, t, m);
    }
    if TrustedAt(l, h, k) {
      var i :| 0 <= i <= k && TrustedSince(l, h, i, k);
      assert TrustedSince(l, t, i, k);
    }
    if TrustedAt(l, t, k) {
      var i :| 0 <= i <= k && TrustedSince(l, t, i, k);
      assert TrustedSince(l, h, i, k);
    }
  }

  /** After a stop, whether a break or a late frame while there was no trust, trust needs a clean run that
      begins later and spans the window. */
  lemma RecoveryTakesTheWindow(l: Thresholds, h: History, b: nat, k: nat) returns (i: nat)
    requires b < k < |h| && Verdict(l, h[..b + 1]) == Stop && TrustedAt(l, h, k)
    ensures b < i <= k && exists m | i <= m <= k :: CleanRun(l, h, i, m)
  {
    var s :| 0 <= s <= k && TrustedSince(l, h, s, k);
    var f :| 0 <= f <= s && CleanRun(l, h, f, s);
    TrustStands(l, h[..b + 1], h, b);
    VerdictsStand(l, h[..b + 1], h, b);
    assert !(f <= b <= s);
    if s < b { assert TrustedSince(l, h, s, b); }
    i := f;
  }

  /** Trust continues over one more observation exactly when that one does not break it. */
  lemma TrustContinues(l: Thresholds, h: History, k: nat)
    requires k < |h|
    ensures TrustedAt(l, h, k) <==> !Broken(l, h, k) && (HealthyAt(l, h, k) || (k > 0 && TrustedAt(l, h, k - 1)))
  {
    if TrustedAt(l, h, k) {
      var i :| 0 <= i <= k && TrustedSince(l, h, i, k);
      if i < k { assert TrustedSince(l, h, i, k - 1); }
    }
    if !Broken(l, h, k) && HealthyAt(l, h, k) { assert TrustedSince(l, h, k, k); }
    if !Broken(l, h, k) && k > 0 && TrustedAt(l, h, k - 1) {
      var i :| 0 <= i <= k - 1 && TrustedSince(l, h, i, k - 1);
      assert TrustedSince(l, h, i, k);
    }
  }

  lemma {:induction false} ClockGrows(h: History, i: nat, j: nat)
    requires i <= j <= |h|
    ensures Clock(h[..i]) <= Clock(h[..j])
    decreases j
  {
    if i < j {
      ClockGrows(h, i, j - 1);
      assert h[..j][..j - 1] == h[..j - 1];
    }
  }

  lemma AcceptedTimesAreOrdered(h: History, i: nat, j: nat)
    requires i <= j < |h| && Accepted(h, i) && Accepted(h, j)
    ensures h[i].now <= h[j].now
  {
    if i < j {
      assert h[..i + 1][..i] == h[..i];
      ClockGrows(h, i + 1, j);
    }
  }

  /** Health depends only on where the unbroken clean run began. */
  lemma HealthCountsFromTheStart(l: Thresholds, h: History, begun: nat, k: nat)
    requires begun <= k < |h| && (forall m | begun <= m <= k :: Clean(l, h, m))
    requires begun > 0 ==> !Clean(l, h, begun - 1)
    ensures HealthyAt(l, h, k) <==> h[k].now - h[begun].now >= l.stable
  {
    if HealthyAt(l, h, k) {
      var i :| 0 <= i <= k && CleanRun(l, h, i, k);
      assert Clean(l, h, begun) && Clean(l, h, i);
      AcceptedTimesAreOrdered(h, begun, i);
    }
    if h[k].now - h[begun].now >= l.stable { assert CleanRun(l, h, begun, k); }
  }

  lemma UncleanIsNotHealthy(l: Thresholds, h: History, k: nat)
    requires k < |h| && !Clean(l, h, k)
    ensures !HealthyAt(l, h, k)
  {
  }

  // ---- The verdict, said in the fields of the observations ----

  /** A frame that counts: valid, stamped between the start and its arrival, and not observed before an earlier one. */
  ghost predicate Genuine(h: History, k: nat)
    requires k < |h|
  {
    h[k].valid && 0 <= h[k].feedback <= h[k].now && forall j | 0 <= j < k :: h[j].now <= h[k].now
  }

  /** An observation that leaves trust alone: no fault, a frame that counts and is younger than the stop bound, and
      less than the stop bound after some earlier frame that counts, if there is one. */
  ghost predicate Unbroken(l: Thresholds, h: History, k: nat)
    requires k < |h|
  {
    && !h[k].fault && Genuine(h, k) && h[k].now - h[k].feedback < l.stop
    && ((exists j | 0 <= j < k :: Genuine(h, j)) ==> exists j | 0 <= j < k :: Genuine(h, j) && h[k].feedback - h[j].feedback < l.stop)
  }

  lemma {:induction false} ClockInFields(h: History)
    ensures forall j | 0 <= j < |h| :: h[j].now <= Clock(h)
    ensures Clock(h) == 0 || exists j | 0 <= j < |h| :: h[j].now == Clock(h)
  {
    if h != [] {
      var r := h[..|h| - 1];
      ClockInFields(r);
      forall j | 0 <= j < |h| ensures h[j].now <= Clock(h) {
        if j < |r| { assert h[j] == r[j]; }
      }
      if h[|h| - 1].now < Clock(r) && Clock(r) != 0 {
        var j :| 0 <= j < |r| && r[j].now == Clock(r);
        assert h[j].now == Clock(h);
      }
    }
  }

  /** An observation is accepted exactly when its time is not negative and not before any earlier one. */
  lemma AcceptedInFields(h: History, k: nat)
    requires k < |h|
    ensures Accepted(h, k) <==> h[k].now >= 0 && forall j | 0 <= j < k :: h[j].now <= h[k].now
  {
    ClockInFields(h[..k]);
    if forall j | 0 <= j < k :: h[j].now <= h[k].now {
      forall j | 0 <= j < |h[..k]| ensures h[..k][j].now <= h[k].now { assert h[..k][j] == h[j]; }
    }
    forall j | 0 <= j < k ensures h[j].now <= Clock(h[..k]) { assert h[..k][j] == h[j]; }
  }

  /** The newest stamp is that of a frame that counts, and no such frame has a newer one. */
  lemma {:induction false} NewestInFields(h: History, k: nat)
    requires k <= |h|
    ensures forall j | 0 <= j < k && Genuine(h, j) :: h[j].feedback <= Newest(h[..k])
    ensures Newest(h[..k]) == -1 || exists j | 0 <= j < k :: Genuine(h, j) && h[j].feedback == Newest(h[..k])
    ensures Newest(h[..k]) >= 0 <==> exists j | 0 <= j < k :: Genuine(h, j)
  {
    if k > 0 {
      NewestInFields(h, k - 1);
      AcceptedInFields(h, k - 1);
      assert h[..k][..k - 1] == h[..k - 1];
      assert Accepted(h[..k], k - 1) == Accepted(h, k - 1);
      assert Genuine(h, k - 1) <==> Accepted(h, k - 1) && h[k - 1].Trustworthy();
    }
  }

  lemma UnbrokenExactly(l: Thresholds, h: History, k: nat)
    requires k < |h| && l.Sensible()
    ensures Unbroken(l, h, k) <==> !Broken(l, h, k)
  {
    AcceptedInFields(h, k);
    NewestInFields(h, k);
  }

  /** Every observation since `i` is unbroken and younger than the warning bound, and the span reaches the window. */
  ghost predicate Proven(l: Thresholds, h: History, i: nat, k: nat)
    requires i <= k < |h|
  {
    && (forall m | i <= m <= k :: Unbroken(l, h, m) && h[m].now - h[m].feedback < l.warn)
    && h[k].now - h[i].now >= l.stable
  }

  lemma ProvenExactly(l: Thresholds, h: History, i: nat, k: nat)
    requires l.Sensible() && i <= k < |h|
    ensures Proven(l, h, i, k) <==> CleanRun(l, h, i, k)
  {
    forall m | i <= m <= k ensures Unbroken(l, h, m) && h[m].now - h[m].feedback < l.warn <==> Clean(l, h, m) {
      UnbrokenExactly(l, h, m);
    }
    hide Unbroken, Broken, Clean;
  }

  /** Motion is trusted exactly when some stretch of observations has proven health and every one since, up to the
      last, is without fault, in order, valid, stamped between the start and its arrival, younger than the stop
      bound and no gap. */
  lemma TrustInFields(l: Thresholds, h: History, k: nat)
    requires l.Sensible() && |h| == k + 1
    ensures Verdict(l, h) == Healthy || Verdict(l, h) == Warn <==>
      exists i, j | 0 <= i <= j <= k :: Proven(l, h, i, j) && forall m | j <= m <= k :: Unbroken(l, h, m)
    ensures Verdict(l, h) == Healthy <==> exists i | 0 <= i <= k :: Proven(l, h, i, k)
    ensures Verdict(l, h) == Stabilizing ==> Unbroken(l, h, k) && h[k].now - h[k].feedback < l.warn
    ensures Verdict(l, h) == Stop ==> !(Unbroken(l, h, k) && h[k].now - h[k].feedback < l.warn)
  {
    forall m | 0 <= m <= k ensures Unbroken(l, h, m) <==> !Broken(l, h, m) { UnbrokenExactly(l, h, m); }
    forall i, j | 0 <= i <= j <= k ensures Proven(l, h, i, j) <==> CleanRun(l, h, i, j) { ProvenExactly(l, h, i, j); }
    TrustIsExact(l, h);
    hide Proven, CleanRun, Unbroken, Broken;
    if TrustedAt(l, h, k) {
      var j :| 0 <= j <= k && TrustedSince(l, h, j, k);
      var i :| 0 <= i <= j && CleanRun(l, h, i, j);
      assert Proven(l, h, i, j);
    }
    if i, j :| 0 <= i <= j <= k && Proven(l, h, i, j) && forall m | j <= m <= k :: Unbroken(l, h, m) {
      assert CleanRun(l, h, i, j);
      assert TrustedSince(l, h, j, k);
    }
  }

  /** Each of these alone means Stop, whatever came before. */
  lemma BreaksInFields(l: Thresholds, h: History)
    requires l.Sensible() && h != []
    requires var o := h[|h| - 1];
      || o.fault || !o.valid || o.feedback < 0 || o.feedback > o.now || o.now - o.feedback >= l.stop
      || (exists j | 0 <= j < |h| - 1 :: h[j].now > o.now)
      || ((exists j | 0 <= j < |h| - 1 :: Genuine(h, j))
          && forall j | 0 <= j < |h| - 1 && Genuine(h, j) :: o.feedback - h[j].feedback >= l.stop)
    ensures Verdict(l, h) == Stop
  {
    var k := |h| - 1;
    assert !Unbroken(l, h, k);
    UnbrokenExactly(l, h, k);
    UncleanIsNotHealthy(l, h, k);
    TrustContinues(l, h, k);
  }

  // ---- The monitor ----

  datatype Result = Observed(state: State) | Refused

  /** The clean run that ends now began at `begun`. */
  ghost predicate RunBegins(l: Thresholds, h: History, begun: nat) {
    && begun <= |h| && (begun > 0 ==> !Clean(l, h, begun - 1))
    && forall m | begun <= m < |h| :: Clean(l, h, m)
  }

  /** The start of the stable window, as the monitor keeps it: the time the unbroken clean run began,
      or nothing when there is none (or when no window is required at all). */
  ghost predicate Windowed(l: Thresholds, h: History, begun: nat, since: int, state: State) {
    && RunBegins(l, h, begun) && since >= -1
    && (begun == |h| ==> since == -1)
    && (begun < |h| ==> since == h[begun].now || (since == -1 && l.stable == 0 && state == Healthy))
  }

  /** The verdict after one more observation, from the verdict before it: whether the observation breaks
      trust, whether it is late, and how long the clean run then lasts. */
  function Judged(l: Thresholds, v: State, broken: bool, late: bool, span: int): State {
    var trusted := v == Healthy || v == Warn;
    if broken then Stop
    else if late then if trusted then Warn else Stop
    else if v == Healthy || span >= l.stable then Healthy
    else if trusted then Warn else Stabilizing
  }

  /** Trust and health of the observation before, seen from the longer history. */
  lemma TrustedBefore(l: Thresholds, h: History, t: History)
    requires h != [] && |h| < |t| && h == t[..|h|]
    ensures TrustedAt(l, t, |h| - 1) <==> Verdict(l, h) == Healthy || Verdict(l, h) == Warn
  {
    TrustIsExact(l, h);
    TrustStands(l, h, t, |h| - 1);
  }

  lemma RunsStand(l: Thresholds, h: History, t: History, begun: nat)
    requires |h| < |t| && h == t[..|h|] && RunBegins(l, h, begun)
    ensures forall m | begun <= m < |h| :: Clean(l, t, m)
    ensures begun > 0 ==> !Clean(l, t, begun - 1)
    ensures begun < |h| ==> t[begun] == h[begun]
  {
    forall m | 0 <= m < |h| ensures Clean(l, h, m) == Clean(l, t, m) {
      VerdictsStand(l, h, t, m);
    }
  }

  /** Health at the next clean observation counts from the start of the run, and continues. */
  lemma HealthStep(l: Thresholds, h: History, t: History, begun: nat)
    requires |t| == |h| + 1 && h == t[..|h|] && RunBegins(l, h, begun) && Clean(l, t, |h|)
    ensures HealthyAt(l, t, |h|) <==> t[|h|].now - t[begun].now >= l.stable
    ensures Verdict(l, h) == Healthy ==> HealthyAt(l, t, |h|)
  {
    var k := |h|;
    RunsStand(l, h, t, begun);
    HealthCountsFromTheStart(l, t, begun, k);
    if Verdict(l, h) == Healthy {
      HealthStands(l, h, t, k - 1);
      var i :| 0 <= i <= k - 1 && CleanRun(l, t, i, k - 1);
      assert Clean(l, t, k - 1);
      AcceptedTimesAreOrdered(t, k - 1, k);
      assert CleanRun(l, t, i, k);
    }
  }

  lemma VerdictStep(l: Thresholds, h: History, o: Observation, begun: nat)
    requires l.Sensible() && RunBegins(l, h, begun)
    ensures Verdict(l, h + [o]) == Judged(l, Verdict(l, h), Broken(l, h + [o], |h|), o.now - o.feedback >= l.warn,
                                          if begun < |h| then o.now - h[begun].now else 0)
  {
    var t, k := h + [o], |h|;
    assert t[..k] == h && t[k] == o && (begun < k ==> t[begun] == h[begun]);
    TrustContinues(l, t, k);
    if k > 0 { TrustedBefore(l, h, t); }
    if Clean(l, t, k) {
      HealthStep(l, h, t, begun);
    } else {
      UncleanIsNotHealthy(l, t, k);
    }
  }

  /** One more observation, read off the clock and the newest stamp before it. */
  lemma Appended(l: Thresholds, h: History, o: Observation, t: History)
    requires t == h + [o]
    ensures Clock(t) == Later(Clock(h), o.now)
    ensures Newest(t) == if o.now >= Clock(h) && o.Trustworthy() then Later(Newest(h), o.feedback) else Newest(h)
    ensures Broken(l, t, |h|) == Breaks(l, o, Clock(h), Newest(h))
  {
    assert t[..|h|] == h && t[|h|] == o;
    assert Accepted(t, |h|) == (o.now >= Clock(h));
  }

  lemma RunGoesOn(l: Thresholds, h: History, o: Observation, begun: nat)
    requires RunBegins(l, h, begun)
    ensures begun < |h| ==> h[begun].now >= 0 && (h + [o])[begun] == h[begun]
    ensures begun == |h| ==> (h + [o])[begun] == o
    ensures RunBegins(l, h + [o], if Clean(l, h + [o], |h|) then begun else |h| + 1)
  {
    var t := h + [o];
    forall m | 0 <= m < |h| ensures Clean(l, h, m) == Clean(l, t, m) {
      VerdictsStand(l, h, t, m);
    }
    if begun < |h| {
      assert Clean(l, h, begun);
      assert h[begun].now >= Clock(h[..begun]);
    }
  }

  function Later(a: int, b: int): int { if a < b then b else a }

  predicate Breaks(l: Thresholds, o: Observation, clock: int, newest: int) {
    || o.now < clock || o.fault || !o.Trustworthy()
    || (newest >= 0 && o.feedback - newest >= l.stop) || o.now - o.feedback >= l.stop
  }

  /** How the window start may move. */
  lemma WindowMoves(l: Thresholds, h: History, o: Observation, begun: nat, since: int, state: State, since': int, state': State)
    requires Windowed(l, h, begun, since, state)
    requires if !Clean(l, h + [o], |h|) then since' == -1
             else if since >= 0 then since' == since
             else since' == o.now || (since' == -1 && l.stable == 0 && state' == Healthy)
    requires state == Healthy && since == -1 && Clean(l, h + [o], |h|) ==> since' == -1
    ensures Windowed(l, h + [o], if Clean(l, h + [o], |h|) then begun else |h| + 1, since', state')
  {
    RunGoesOn(l, h, o, begun);
    assert Clean(l, h + [o], |h|) ==> o.now >= 0;
  }

  /** What the monitor remembers. */
  datatype Memory = Memory(state: State, since: int, clock: int, newest: int)

  /** The memory is a faithful summary of everything observed. */
  ghost predicate Summarizes(l: Thresholds, h: History, begun: nat, m: Memory) {
    && l.Sensible() && m.clock == Clock(h) && m.newest == Newest(h)
    && m.state == Verdict(l, h) && Windowed(l, h, begun, m.since, m.state)
  }

  function WindowStart(l: Thresholds, m: Memory, now: int): int {
    if m.since >= 0 || m.state == Healthy || (m.state == Unknown && l.stable == 0) then m.since else now
  }

  function Spanned(since: int, now: int): int { if since >= 0 then now - since else 0 }

  function Advance(l: Thresholds, m: Memory, o: Observation): Memory {
    var broken := Breaks(l, o, m.clock, m.newest);
    var clean := !broken && o.now - o.feedback < l.warn;
    var since := if clean then WindowStart(l, m, o.now) else -1;
    Memory(Judged(l, m.state, broken, !clean, Spanned(since, o.now)), since, Later(m.clock, o.now),
           if o.now >= m.clock && o.Trustworthy() then Later(m.newest, o.feedback) else m.newest)
  }

  lemma SummaryAdvances(l: Thresholds, h: History, begun: nat, m: Memory, o: Observation) returns (begun': nat)
    requires Summarizes(l, h, begun, m)
    ensures Summarizes(l, h + [o], begun', Advance(l, m, o))
  {
    Appended(l, h, o, h + [o]);
    VerdictStep(l, h, o, begun);
    RunGoesOn(l, h, o, begun);
    WindowMoves(l, h, o, begun, m.since, m.state, Advance(l, m, o).since, Advance(l, m, o).state);
    begun' := if Clean(l, h + [o], |h|) then begun else |h| + 1;
  }

  lemma TrustIsLookedBack(l: Thresholds, h: History)
    requires l.Sensible()
    ensures Verdict(l, h) == Healthy || Verdict(l, h) == Warn <==> h != [] && TrustedAt(l, h, |h| - 1)
  {
    if h != [] { TrustIsExact(l, h); }
  }

  class Freshness {
    const limits: Thresholds
    var state: State
    var stableSince: int
    var lastNow: int
    var lastFeedback: int
    var seenTime: bool
    var warningLatched: bool
    ghost var seen: History
    ghost var begun: nat

    ghost function View(): Memory
      reads this
    {
      Memory(state, stableSince, lastNow, lastFeedback)
    }

    ghost predicate Valid()
      reads this
    {
      Summarizes(limits, seen, begun, View()) && Consistent()
    }

    ghost predicate Consistent()
      reads this
    {
      && (!seenTime ==> lastNow == 0) && lastNow >= 0
      && warningLatched == (state == Warn) && (state == Unknown ==> stableSince == -1)
    }

    constructor (limits: Thresholds)
      requires limits.Sensible()
      ensures Valid() && seen == [] && state == Unknown && this.limits == limits
    {
      this.limits := limits;
      state, stableSince, lastNow, lastFeedback, seenTime, warningLatched := Unknown, -1, 0, -1, false, false;
      seen, begun := [], 0;
    }

    /** A gap or a fault closes at once; a late frame only warns a channel that was healthy; a stopped
        channel must stay clean for the whole window. */
    method Observe(now: int, feedback: int, valid: bool, hardFault: bool) returns (r: Result)
      requires Valid()
      modifies this
      ensures Valid() && seen == old(seen) + [Observation(now, feedback, valid, hardFault)]
      ensures state == Verdict(limits, seen)
      ensures r == if now < old(lastNow) then Refused else Observed(state)
      ensures hardFault || !valid || feedback < 0 || feedback > now || now - feedback >= limits.stop ==> state == Stop
      ensures now < old(lastNow) ==> state == Stop
      ensures 0 <= old(lastFeedback) <= feedback - limits.stop ==> state == Stop
    {
      ghost var o := Observation(now, feedback, valid, hardFault);
      ghost var begun' := SummaryAdvances(limits, seen, begun, View(), o);
      r := Judge(now, feedback, valid, hardFault);
      seen, begun := seen + [o], begun';
    }

    method Judge(now: int, feedback: int, valid: bool, hardFault: bool) returns (r: Result)
      requires limits.Sensible() && Consistent()
      modifies this
      ensures Consistent() && View() == Advance(limits, old(View()), Observation(now, feedback, valid, hardFault))
      ensures seen == old(seen) && begun == old(begun)
      ensures r == if now < old(lastNow) then Refused else Observed(state)
    {
      if now < 0 || (seenTime && now < lastNow) {
        state, stableSince, warningLatched := Stop, -1, false;
        return Refused;
      }
      seenTime, lastNow := true, now;
      var trustworthy := valid && feedback >= 0 && feedback <= now;
      var age := if trustworthy then now - feedback else limits.stop;
      var gap := trustworthy && lastFeedback >= 0 && feedback > lastFeedback && feedback - lastFeedback >= limits.stop;
      if trustworthy && feedback > lastFeedback { lastFeedback := feedback; }
      if hardFault || gap || !trustworthy || age >= limits.stop {
        state, stableSince, warningLatched := Stop, -1, false;
        return Observed(state);
      }
      if age >= limits.warn {
        stableSince := -1;
        if state == Healthy || state == Warn {
          state, warningLatched := Warn, true;
        } else {
          state := Stop;
        }
        return Observed(state);
      }
      Ripen(now);
      return Observed(state);
    }

    /** A clean observation: the stable window starts, or goes on, or is complete. */
    method Ripen(now: int)
      requires limits.Sensible() && Consistent() && now >= 0 && seenTime
      modifies `state, `stableSince, `warningLatched
      ensures Consistent() && stableSince == WindowStart(limits, old(View()), now)
      ensures state == Judged(limits, old(state), false, false, Spanned(stableSince, now))
    {
      if state == Unknown && limits.stable == 0 {
        state := Healthy;
        return;
      }
      if state == Healthy { return; }
      if stableSince < 0 { stableSince := now; }
      if now - stableSince >= limits.stable {
        warningLatched, state := false, Healthy;
        return;
      }
      state := if warningLatched then Warn else Stabilizing;
    }

    /** Before the first observation nothing is trusted. */
    predicate TrustworthyForMotion()
      requires Valid()
      reads this
      ensures TrustworthyForMotion() <==> seen != [] && TrustedAt(limits, seen, |seen| - 1)
    {
      TrustIsLookedBack(limits, seen);
      state == Healthy || state == Warn
    }
  }
}

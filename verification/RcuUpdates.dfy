/** What an update that a thread begins, and a get that it begins, mean for the abstract map. */
module RcuUpdates {
  import opened HlistMemory
  import opened RcuHashMap
  import opened RcuInvariants
  import opened RcuSteps
  import opened RcuPublish
  import opened RcuTheorems

  /** The step from s to s' is action `a`. */
  ghost predicate Does(s: State, a: Action, s': State) {
    Shaped(s) && Step(s, a, s')
  }

  /** Thread w begins action `a` in step i and publishes for the first time after that in step j. */
  ghost predicate FirstPublish(run: seq<State>, i: nat, a: Action, j: nat, w: Tid) {
    && i < j && j + 1 < |run| && Does(run[i], a, run[i + 1]) && Does(run[j], APublish(w), run[j + 1])
    && forall k: nat {:trigger Does(run[k], APublish(w), run[k + 1])} :: i < k < j ==> !Does(run[k], APublish(w), run[k + 1])
  }

  /** Writer w is on its way to the publish that maps the key to the value, or unmaps it for None. */
  ghost predicate Means(s: State, w: Tid, key: Key, value: Option<Value>) {
    && w in s.writers && (s.writers[w].Waiting? || s.writers[w].Scanning?) && s.writers[w].key == key
    && if value.Some? then s.writers[w].op.Insert? && HoldsPair(s.mem, s.writers[w].op.node, key, value.value)
       else s.writers[w].op.Remove?
  }

  predicate HoldsPair(m: Memory, p: Ptr, key: Key, value: Value) {
    p in m.nodes && m.nodes[p].key == key && m.nodes[p].value == value
  }

  /** The stores of a publish write links only. */
  lemma PublishKeepsPairs(m: Memory, b: Index, op: Op, cur: Ptr, p: Ptr, key: Key, value: Value)
    requires b < |m.heads| && (op.Insert? ==> op.node in m.nodes) && (cur != NULL ==> cur in m.nodes)
    requires HoldsPair(m, p, key, value)
    ensures HoldsPair(PublishedMemory(m, b, op, cur), p, key, value)
  {
    match op
    case Insert(n) =>
      if cur == NULL {
        AddKeepsPairs(m, n, b, p, key, value);
      } else {
        ReplaceKeepsPairs(m, cur, n, p, key, value);
      }
    case Remove =>
      if cur != NULL {
        DelKeepsPairs(m, cur, p, key, value);
      }
  }

  lemma StoreKeepsPairs(m: Memory, slot: Slot, x: Ptr, p: Ptr, key: Key, value: Value)
    requires HoldsPair(m, p, key, value)
    ensures HoldsPair(Store(m, slot, x), p, key, value) && HoldsPair(SetPprev(m, x, slot), p, key, value)
  {
  }

  lemma AddKeepsPairs(m: Memory, n: Ptr, b: Index, p: Ptr, key: Key, value: Value)
    requires n in m.nodes && b < |m.heads| && HoldsPair(m, p, key, value)
    ensures HoldsPair(AddHeadRcu(m, n, b), p, key, value)
  {
    var m1 := m.(nodes := m.nodes[n := m.nodes[n].(next := m.heads[b], pprev := HeadSlot(b))]);
    StoreKeepsPairs(m1, HeadSlot(b), n, p, key, value);
    StoreKeepsPairs(Store(m1, HeadSlot(b), n), NextSlot(n), m.heads[b], p, key, value);
  }

  lemma ReplaceKeepsPairs(m: Memory, gone: Ptr, n: Ptr, p: Ptr, key: Key, value: Value)
    requires gone in m.nodes && n in m.nodes && HoldsPair(m, p, key, value)
    ensures HoldsPair(ReplaceRcu(m, gone, n), p, key, value)
  {
    var next, pprev := m.nodes[gone].next, m.nodes[gone].pprev;
    var m1 := m.(nodes := m.nodes[n := m.nodes[n].(next := next, pprev := pprev)]);
    StoreKeepsPairs(m1, pprev, n, p, key, value);
    var m2 := Store(m1, pprev, n);
    StoreKeepsPairs(m2, NextSlot(n), next, p, key, value);
    StoreKeepsPairs(SetPprev(m2, next, NextSlot(n)), Poison, gone, p, key, value);
  }

  lemma DelKeepsPairs(m: Memory, n: Ptr, p: Ptr, key: Key, value: Value)
    requires n in m.nodes && HoldsPair(m, p, key, value)
    ensures HoldsPair(DelRcu(m, n), p, key, value)
  {
    var next, pprev := m.nodes[n].next, m.nodes[n].pprev;
    StoreKeepsPairs(m, pprev, next, p, key, value);
    var m1 := Store(m, pprev, next);
    StoreKeepsPairs(m1, pprev, next, p, key, value);
    StoreKeepsPairs(SetPprev(m1, next, pprev), Poison, n, p, key, value);
  }

  /** What an update means is kept by every step but its own publish. */
  lemma StepKeepsMeaning(s: State, a: Action, s': State, w: Tid, key: Key, value: Option<Value>)
    requires Inv(s) && Step(s, a, s') && Means(s, w, key, value) && a != APublish(w)
    ensures Means(s', w, key, value)
  {
    assert WriterOk(s, w);
    if a.APublish? {
      var wr := s.writers[a.w];
      if value.Some? {
        PublishKeepsPairs(s.mem, s.index(wr.key), wr.op, wr.cur, s.writers[w].op.node, key, value.value);
      }
    } else {
      QuietStep(s, a, s', w, key, value);
    }
  }

  lemma QuietStep(s: State, a: Action, s': State, w: Tid, key: Key, value: Option<Value>)
    requires Shaped(s) && Step(s, a, s') && Means(s, w, key, value) && !a.APublish?
    requires value.Some? && s.writers[w].op.node in s.phase ==> s.phase[s.writers[w].op.node] != Pending({})
    ensures Means(s', w, key, value)
  {
  }

  lemma NextKeepsMeaning(s: State, s': State, w: Tid, key: Key, value: Option<Value>)
    requires Inv(s) && Next(s, s') && Means(s, w, key, value) && !Does(s, APublish(w), s')
    ensures Means(s', w, key, value)
  {
    var a :| Step(s, a, s');
    StepKeepsMeaning(s, a, s', w, key, value);
  }

  lemma {:induction false} MeaningLasts(run: seq<State>, i: nat, j: nat, w: Tid, key: Key, value: Option<Value>)
    requires IsRun(run) && i < j < |run| && Means(run[i + 1], w, key, value)
    requires forall k: nat {:trigger Does(run[k], APublish(w), run[k + 1])} :: i < k < j ==> !Does(run[k], APublish(w), run[k + 1])
    ensures Means(run[j], w, key, value)
  {
    if i + 1 < j {
      var k := j - 1;
      MeaningLasts(run, i, k, w, key, value);
      RunKept(run, k);
      assert Next(run[j - 1], run[j]) && !Does(run[k], APublish(w), run[k + 1]);
      NextKeepsMeaning(run[k], run[j], w, key, value);
    }
  }

  // ---- updates ----

  /** What the abstract map holds for `key` afterwards, and that it holds for every other key what it held. */
  ghost predicate MapsOnly(s: State, s': State, key: Key, value: Option<Value>) {
    && Shaped(s) && Shaped(s') && Contents(s', key) == value
    && forall k :: k != key ==> Contents(s', k) == Contents(s, k)
  }

  lemma PublishMeans(s: State, s': State, w: Tid, key: Key, value: Option<Value>)
    requires Inv(s) && Does(s, APublish(w), s') && Means(s, w, key, value)
    ensures MapsOnly(s, s', key, value)
    ensures w in s'.writers && s'.writers[w].Published? && (s'.writers[w].unlinked != NULL <==> Contents(s, key) != None)
  {
    forall k ensures Shaped(s') && Contents(s', k) == if k == key then value else Contents(s, k) {
      PublishIsUpdate(s, w, k);
    }
    PublishIsUpdate(s, w, key);
  }

  /** pe_map_insert(key, value) has its effect in the one step in which its entry is published: then the
      map holds that value for that key, and for every other key what it held before. */
  lemma InsertTakesEffect(run: seq<State>, i: nat, j: nat, w: Tid, key: Key, value: Value, p: Ptr)
    requires IsRun(run) && FirstPublish(run, i, ABeginInsert(w, key, value, p), j, w)
    ensures MapsOnly(run[j], run[j + 1], key, Some(value))
  {
    assert Means(run[i + 1], w, key, Some(value));
    MeaningLasts(run, i, j, w, key, Some(value));
    RunKept(run, j);
    PublishMeans(run[j], run[j + 1], w, key, Some(value));
  }

  /** pe_map_remove(key) likewise: then the map holds nothing for that key.  An entry is unlinked, and 0
      returned, exactly if the map held something. */
  lemma RemoveTakesEffect(run: seq<State>, i: nat, j: nat, w: Tid, key: Key)
    requires IsRun(run) && FirstPublish(run, i, ABeginRemove(w, key), j, w)
    ensures MapsOnly(run[j], run[j + 1], key, None)
    ensures var s' := run[j + 1];
      w in s'.writers && s'.writers[w].Published? && (s'.writers[w].unlinked != NULL <==> Contents(run[j], key) != None)
  {
    assert Means(run[i + 1], w, key, None);
    MeaningLasts(run, i, j, w, key, None);
    RunKept(run, j);
    PublishMeans(run[j], run[j + 1], w, key, None);
  }

  // ---- gets ----

  lemma {:induction false} KeyLasts(run: seq<State>, i: nat, j: nat, r: Tid)
    requires IsRun(run) && Section(run, i, j, r)
    ensures run[j].readers[r].key == run[i + 1].readers[r].key
  {
    if i + 1 < j {
      KeyLasts(run, i, j - 1, r);
      NotesGrowAt(run, i, j, r);
    }
  }

  /** pe_map_get(key), begun in step i and answered by state j, answers what the map held for that key in
      some state between the two. */
  lemma GetAnswers(run: seq<State>, i: nat, j: nat, r: Tid, key: Key) returns (k: nat)
    requires IsRun(run) && Section(run, i, j, r) && Does(run[i], AEnter(r, key), run[i + 1])
    requires run[j].readers[r].pc.Done?
    ensures i < k <= j && Shaped(run[k]) && run[j].readers[r].pc.result == Contents(run[k], key)
  {
    KeyLasts(run, i, j, r);
    k := GetIsLinearizable(run, i, j, r);
  }

  /** The step is a publish for the key. */
  ghost predicate Updates(s: State, s': State, key: Key) {
    exists w :: Does(s, APublish(w), s') && w in s.writers && s.writers[w].key == key
  }

  lemma NextKeepsContents(s: State, s': State, key: Key)
    requires Inv(s) && Next(s, s') && !Updates(s, s', key)
    ensures Shaped(s') && Contents(s', key) == Contents(s, key)
  {
    var a :| Step(s, a, s');
    if a.APublish? {
      assert Does(s, APublish(a.w), s');
      PublishIsUpdate(s, a.w, key);
    } else {
      OnlyPublishUpdates(s, a, s', key);
    }
  }

  lemma {:induction false} ContentsLast(run: seq<State>, i: nat, j: nat, key: Key)
    requires IsRun(run) && i <= j < |run|
    requires forall k {:trigger Updates(run[k - 1], run[k], key)} :: i < k <= j ==> !Updates(run[k - 1], run[k], key)
    ensures Shaped(run[i]) && Shaped(run[j]) && Contents(run[j], key) == Contents(run[i], key)
  {
    RunKept(run, j);
    if i < j {
      ContentsLast(run, i, j - 1, key);
      RunKept(run, j - 1);
      assert Next(run[j - 1], run[j]) && !Updates(run[j - 1], run[j], key);
      NextKeepsContents(run[j - 1], run[j], key);
    }
  }

  /** A get that begins after an insert has taken effect, and during which nobody else updates the key, hits
      and answers the value inserted. */
  lemma GetAfterInsert(run: seq<State>, i: nat, j: nat, w: Tid, key: Key, value: Value, p: Ptr, h: nat, l: nat, r: Tid)
    requires IsRun(run) && FirstPublish(run, i, ABeginInsert(w, key, value, p), j, w) && j < h
    requires Section(run, h, l, r) && Does(run[h], AEnter(r, key), run[h + 1]) && run[l].readers[r].pc.Done?
    requires forall k {:trigger Updates(run[k - 1], run[k], key)} :: j + 1 < k <= l ==> !Updates(run[k - 1], run[k], key)
    ensures run[l].readers[r].pc.result == Some(value)
  {
    InsertTakesEffect(run, i, j, w, key, value, p);
    var k := GetAnswers(run, h, l, r, key);
    ContentsLast(run, j + 1, k, key);
  }

  // ---- what has been unlinked is freed in the end ----

  /** A callback waits for no reader that has left. */
  ghost predicate WaitersRead(s: State) {
    forall p :: p in s.phase && s.phase[p].Pending? ==> s.phase[p].waiters <= s.readers.Keys
  }

  lemma PublishWaiters(s: State, w: Tid)
    requires Shaped(s) && WaitersRead(s) && CanPublish(s, w)
    ensures WaitersRead(Publish(s, w))
  {
    var s' := Publish(s, w);
    forall p | p in s'.phase && s'.phase[p].Pending? ensures s'.phase[p].waiters <= s'.readers.Keys {
      assert p in s.phase && s.phase[p] == s'.phase[p];
    }
  }

  lemma StepWaiters(s: State, a: Action, s': State)
    requires Shaped(s) && WaitersRead(s) && Step(s, a, s')
    ensures WaitersRead(s')
  {
    if a.APublish? {
      PublishWaiters(s, a.w);
    }
  }

  lemma NextWaiters(s: State, s': State)
    requires WaitersRead(s) && Next(s, s')
    ensures WaitersRead(s')
  {
    var a :| Step(s, a, s');
    StepWaiters(s, a, s');
  }

  lemma {:induction false} RunWaiters(run: seq<State>, i: nat)
    requires IsRun(run) && i < |run|
    ensures WaitersRead(run[i])
  {
    if i > 0 {
      RunWaiters(run, i - 1);
      assert Next(run[i - 1], run[i]);
      NextWaiters(run[i - 1], run[i]);
    }
  }

  /** An entry handed to call_rcu can be freed as soon as nobody is left who was reading then: at the latest
      when nobody is reading at all. */
  lemma GracePeriodEnds(run: seq<State>, i: nat, p: Ptr)
    requires IsRun(run) && i < |run| && p in run[i].phase && run[i].phase[p].Pending?
    ensures run[i].phase[p].waiters <= run[i].readers.Keys
    ensures run[i].phase[p].waiters * run[i].readers.Keys == {} ==> CanReclaim(run[i], p)
  {
    RunWaiters(run, i);
    RunKept(run, i);
    assert run[i].phase[p].waiters * run[i].readers.Keys == run[i].phase[p].waiters;
  }
}

/** Multi-device sync: conditional writes with merge on conflict, and expiring mutation locks. */
module StoreSync {
  import opened Prelude

  // ---------------------------------------------------------------- one resource, many clients

  datatype How<!V> = ByMutate(f: V -> V) | ByMerge(local: V)

  /** A value the resource has had, with the etag it was written under. */
  datatype Version<!V> = Version(etag: nat, value: V, how: How<V>)

  /** One `update` call between its awaits: about to read, holding what it read, about to re-read
    * after a conflict, holding the re-read, and its end. `local` is the caller's own mutation of
    * what the call read first; the call returns it or what it was merged into. */
  datatype Call<V> =
    | Ready
    | HasRead(etag: Option<nat>, value: V)
    | Conflicted(local: V)
    | HasReread(etag: Option<nat>, value: V, local: V)
    | Returned(value: V, local: V)
    | Failed

  /** `versions` is the history of the resource; its last element is what the backend stores. */
  datatype Store<!V> = Store(versions: seq<Version<V>>, counter: nat, calls: seq<Call<V>>)

  datatype Act<!V> =
    | Open
    | Read(c: nat)
    | Write(c: nat, f: V -> V)
    | Reread(c: nat)
    | WriteMerged(c: nat)
    | WriteElsewhere

  function ValueNow<V>(s: Store<V>, nul: V): V {
    if s.versions == [] then nul else Last(s.versions).value
  }

  function EtagNow<V>(s: Store<V>): Option<nat> {
    if s.versions == [] then None else Some(Last(s.versions).etag)
  }

  predicate Allowed<V>(s: Store<V>, a: Act<V>) {
    match a
    case Open => true
    case Read(c) => c < |s.calls| && s.calls[c].Ready?
    case Write(c, _) => c < |s.calls| && s.calls[c].HasRead?
    case Reread(c) => c < |s.calls| && s.calls[c].Conflicted?
    case WriteMerged(c) => c < |s.calls| && s.calls[c].HasReread?
    case WriteElsewhere => true
  }

  /** The conditional write: it happens when the expected etag is the current one. */
  function Put<V>(s: Store<V>, expected: Option<nat>, value: V, how: How<V>): Store<V> {
    if expected != EtagNow(s) then s
    else s.(versions := s.versions + [Version(s.counter + 1, value, how)], counter := s.counter + 1)
  }

  function SetCall<V>(s: Store<V>, c: nat, k: Call<V>): Store<V>
    requires c < |s.calls|
  {
    s.(calls := s.calls[c := k])
  }

  function Perform<V>(s: Store<V>, a: Act<V>, nul: V, merge: (V, V) -> V): Store<V>
    requires Allowed(s, a)
  {
    match a
    case Open => s.(calls := s.calls + [Ready])
    case Read(c) => SetCall(s, c, HasRead(EtagNow(s), ValueNow(s, nul)))
    case Write(c, f) =>
      var k := s.calls[c];
      var local := f(k.value);
      var end := if k.etag == EtagNow(s) then Returned(local, local) else Conflicted(local);
      SetCall(Put(s, k.etag, local, ByMutate(f)), c, end)
    case Reread(c) => SetCall(s, c, HasReread(EtagNow(s), ValueNow(s, nul), s.calls[c].local))
    case WriteMerged(c) =>
      var k := s.calls[c];
      var merged := merge(k.value, k.local);
      var end := if k.etag == EtagNow(s) then Returned(merged, k.local) else Failed;
      SetCall(Put(s, k.etag, merged, ByMerge(k.local)), c, end)
    case WriteElsewhere => s.(counter := s.counter + 1)
  }

  function Exec<V>(s: Store<V>, acts: seq<Act<V>>, nul: V, merge: (V, V) -> V): Option<Store<V>>
    decreases |acts|
  {
    if acts == [] then Some(s)
    else if Allowed(s, acts[0]) then Exec(Perform(s, acts[0], nul, merge), acts[1..], nul, merge)
    else None
  }

  function Before<V>(s: Store<V>, i: nat, nul: V): V
    requires i < |s.versions|
  {
    if i == 0 then nul else s.versions[i - 1].value
  }

  /** `v` was made from `prev`. */
  ghost predicate MadeFrom<V>(v: Version<V>, prev: V, merge: (V, V) -> V) {
    match v.how
    case ByMutate(f) => v.value == f(prev)
    case ByMerge(local) => v.value == merge(prev, local)
  }

  /** Each version was made from the one just before it. */
  ghost predicate ChainOk<V>(s: Store<V>, nul: V, merge: (V, V) -> V) {
    forall i :: 0 <= i < |s.versions| ==> MadeFrom(s.versions[i], Before(s, i, nul), merge)
  }

  ghost predicate EtagsOk<V>(s: Store<V>) {
    && (forall i, j :: 0 <= i < j < |s.versions| ==> s.versions[i].etag < s.versions[j].etag)
    && (forall i :: 0 <= i < |s.versions| ==> s.versions[i].etag <= s.counter)
  }

  /** What was read was a version, or the absence of one. */
  ghost predicate WasRead<V>(s: Store<V>, etag: Option<nat>, value: V, nul: V) {
    if etag.None? then value == nul
    else exists i :: 0 <= i < |s.versions| && s.versions[i].etag == etag.value && s.versions[i].value == value
  }

  ghost predicate CallsOk<V>(s: Store<V>, nul: V) {
    forall c :: 0 <= c < |s.calls| ==> CallOk(s, s.calls[c], nul)
  }

  ghost predicate StoreInv<V>(s: Store<V>, nul: V, merge: (V, V) -> V) {
    ChainOk(s, nul, merge) && EtagsOk(s) && CallsOk(s, nul)
  }

  lemma WasReadPersists<V>(s: Store<V>, s': Store<V>, etag: Option<nat>, value: V, nul: V)
    requires WasRead(s, etag, value, nul) && |s.versions| <= |s'.versions| && s'.versions[..|s.versions|] == s.versions
    ensures WasRead(s', etag, value, nul)
  {
    if etag.Some? {
      var i :| 0 <= i < |s.versions| && s.versions[i].etag == etag.value && s.versions[i].value == value;
      assert s'.versions[i] == s'.versions[..|s.versions|][i];
    }
  }

  /** A step leaves the versions alone or appends one that was made from the current value. */
  lemma VersionsStep<V>(s: Store<V>, a: Act<V>, nul: V, merge: (V, V) -> V)
    requires EtagsOk(s) && CallsOk(s, nul) && Allowed(s, a)
    ensures var s' := Perform(s, a, nul, merge);
      && s'.counter >= s.counter
      && (s'.versions == s.versions ||
          (|s'.versions| == |s.versions| + 1 && s'.versions[..|s.versions|] == s.versions &&
           MadeFrom(s'.versions[|s.versions|], ValueNow(s, nul), merge) &&
           s.counter < s'.versions[|s.versions|].etag <= s'.counter))
  {
    if a.Write? || a.WriteMerged? {
      assert CallOk(s, s.calls[a.c], nul);
    }
  }

  lemma AppendKeepsChain<V>(s: Store<V>, s': Store<V>, v: Version<V>, nul: V, merge: (V, V) -> V)
    requires ChainOk(s, nul, merge) && s'.versions == s.versions + [v]
    requires MadeFrom(v, ValueNow(s, nul), merge)
    ensures ChainOk(s', nul, merge)
  {
    forall i | 0 <= i < |s'.versions|
      ensures MadeFrom(s'.versions[i], Before(s', i, nul), merge)
    {
      if i < |s.versions| {
        assert MadeFrom(s.versions[i], Before(s, i, nul), merge);
        assert Before(s', i, nul) == Before(s, i, nul);
      } else {
        assert Before(s', i, nul) == ValueNow(s, nul);
      }
    }
  }

  lemma ChainStep<V>(s: Store<V>, a: Act<V>, nul: V, merge: (V, V) -> V)
    requires StoreInv(s, nul, merge) && Allowed(s, a)
    ensures ChainOk(Perform(s, a, nul, merge), nul, merge) && EtagsOk(Perform(s, a, nul, merge))
    ensures var s' := Perform(s, a, nul, merge);
      |s.versions| <= |s'.versions| && s'.versions[..|s.versions|] == s.versions
  {
    VersionsStep(s, a, nul, merge);
    var s' := Perform(s, a, nul, merge);
    if s'.versions != s.versions {
      var v := s'.versions[|s.versions|];
      assert s'.versions == s.versions + [v];
      AppendKeepsChain(s, s', v, nul, merge);
    } else {
      forall i | 0 <= i < |s.versions|
        ensures MadeFrom(s'.versions[i], Before(s', i, nul), merge)
      {
        assert MadeFrom(s.versions[i], Before(s, i, nul), merge);
      }
    }
  }

  /** `v` holds `value`, and it is `local` or a merge of `local`. */
  ghost predicate Stands<V>(v: Version<V>, value: V, local: V) {
    v.value == value && match v.how case ByMutate(_) => value == local case ByMerge(own) => own == local
  }

  ghost predicate CallOk<V>(s: Store<V>, k: Call<V>, nul: V) {
    match k
    case HasRead(etag, value) => WasRead(s, etag, value, nul)
    case HasReread(etag, value, _) => WasRead(s, etag, value, nul)
    case Returned(value, local) => exists i :: 0 <= i < |s.versions| && Stands(s.versions[i], value, local)
    case _ => true
  }

  lemma CallPersists<V>(s: Store<V>, s': Store<V>, k: Call<V>, nul: V)
    requires CallOk(s, k, nul) && |s.versions| <= |s'.versions| && s'.versions[..|s.versions|] == s.versions
    ensures CallOk(s', k, nul)
  {
    match k
    case HasRead(etag, value) => WasReadPersists(s, s', etag, value, nul);
    case HasReread(etag, value, _) => WasReadPersists(s, s', etag, value, nul);
    case Returned(value, local) =>
      var i :| 0 <= i < |s.versions| && Stands(s.versions[i], value, local);
      assert s'.versions[i] == s'.versions[..|s.versions|][i];
    case _ =>
  }

  lemma OwnCallStep<V>(s: Store<V>, a: Act<V>, nul: V, merge: (V, V) -> V)
    requires StoreInv(s, nul, merge) && Allowed(s, a) && !a.Open? && !a.WriteElsewhere?
    ensures CallOk(Perform(s, a, nul, merge), Perform(s, a, nul, merge).calls[a.c], nul)
  {
    var s' := Perform(s, a, nul, merge);
    if s'.calls[a.c].Returned? {
      assert Stands(s'.versions[|s.versions|], s'.calls[a.c].value, s'.calls[a.c].local);
    } else {
      assert s'.versions == s.versions;
    }
  }

  lemma StoreStep<V>(s: Store<V>, a: Act<V>, nul: V, merge: (V, V) -> V)
    requires StoreInv(s, nul, merge) && Allowed(s, a)
    ensures StoreInv(Perform(s, a, nul, merge), nul, merge)
  {
    var s' := Perform(s, a, nul, merge);
    ChainStep(s, a, nul, merge);
    forall c | 0 <= c < |s'.calls|
      ensures CallOk(s', s'.calls[c], nul)
    {
      if !a.Open? && !a.WriteElsewhere? && a.c == c {
        OwnCallStep(s, a, nul, merge);
      } else if c < |s.calls| {
        CallPersists(s, s', s.calls[c], nul);
      }
    }
  }

  lemma {:induction false} StoreRun<V>(s: Store<V>, acts: seq<Act<V>>, nul: V, merge: (V, V) -> V)
    requires StoreInv(s, nul, merge) && Exec(s, acts, nul, merge).Some?
    ensures StoreInv(Exec(s, acts, nul, merge).value, nul, merge)
    decreases |acts|
  {
    if acts != [] {
      StoreStep(s, acts[0], nul, merge);
      StoreRun(Perform(s, acts[0], nul, merge), acts[1..], nul, merge);
    }
  }

  function NewStore<V>(): Store<V> {
    Store([], 0, [])
  }

  /** Over any interleaving of any number of clients, the versions of a resource form a chain:
    * each is a caller's mutation of, or the merge with, the version immediately before it. */
  lemma VersionsFormAChain<V>(acts: seq<Act<V>>, nul: V, merge: (V, V) -> V)
    requires Exec(NewStore<V>(), acts, nul, merge).Some?
    ensures ChainOk(Exec(NewStore<V>(), acts, nul, merge).value, nul, merge)
  {
    StoreRun(NewStore<V>(), acts, nul, merge);
  }

  // ---------------------------------------------------------------- when a write happens

  /** Nothing has been written since a read that found this etag. */
  ghost predicate NothingSince<V>(s: Store<V>, etag: Option<nat>) {
    forall i :: 0 <= i < |s.versions| ==> etag.Some? && s.versions[i].etag <= etag.value
  }

  /** `value` is the resource's last version, or `nul` if it has none, and `etag` that version's. */
  ghost predicate IsCurrent<V>(s: Store<V>, etag: Option<nat>, value: V, nul: V) {
    WasRead(s, etag, value, nul) && NothingSince(s, etag) && (s.versions != [] ==> etag.Some?)
  }

  /** The step adds a version after all others. */
  ghost predicate Adds<V>(s: Store<V>, t: Store<V>, value: V, how: How<V>) {
    && |t.versions| == |s.versions| + 1 && t.versions[..|s.versions|] == s.versions
    && Last(t.versions).value == value && Last(t.versions).how == how
    && forall i :: 0 <= i < |s.versions| ==> s.versions[i].etag < Last(t.versions).etag
  }

  /** What a step does to the call it belongs to and to the versions: a read finds the current version; a
    * write happens iff nothing was written since its read, and then the call is over; otherwise it goes on
    * with its own mutation, or fails if that had been merged already. */
  ghost predicate CallGoesOn<V>(s: Store<V>, a: Act<V>, t: Store<V>, nul: V, merge: (V, V) -> V)
    requires Allowed(s, a)
  {
    match a
    case Open => t.calls == s.calls + [Ready] && t.versions == s.versions
    case WriteElsewhere => t.calls == s.calls && t.versions == s.versions
    case _ =>
      && |t.calls| == |s.calls| && t.calls == s.calls[a.c := t.calls[a.c]]
      && match (s.calls[a.c], t.calls[a.c])
         case (Ready, HasRead(etag, value)) => t.versions == s.versions && IsCurrent(s, etag, value, nul)
         case (HasRead(etag, value), Returned(result, local)) =>
           a.Write? && NothingSince(s, etag) && result == local == a.f(value) && Adds(s, t, result, ByMutate(a.f))
         case (HasRead(etag, value), Conflicted(local)) =>
           a.Write? && !NothingSince(s, etag) && local == a.f(value) && t.versions == s.versions
         case (Conflicted(own), HasReread(etag, value, local)) =>
           t.versions == s.versions && local == own && IsCurrent(s, etag, value, nul)
         case (HasReread(etag, value, own), Returned(result, local)) =>
           NothingSince(s, etag) && local == own && result == merge(value, own) && Adds(s, t, result, ByMerge(own))
         case (HasReread(etag, _, _), Failed) => !NothingSince(s, etag) && t.versions == s.versions
         case _ => false
  }

  lemma NothingSinceIsCurrent<V>(s: Store<V>, etag: Option<nat>, value: V, nul: V)
    requires EtagsOk(s) && WasRead(s, etag, value, nul)
    ensures NothingSince(s, etag) <==> etag == EtagNow(s)
  {
    if s.versions != [] && etag.Some? {
      var i :| 0 <= i < |s.versions| && s.versions[i].etag == etag.value && s.versions[i].value == value;
      var n := |s.versions| - 1;
      if i < n {
        assert s.versions[i].etag < s.versions[n].etag;
      }
    }
  }

  lemma NowIsCurrent<V>(s: Store<V>, nul: V)
    requires EtagsOk(s)
    ensures IsCurrent(s, EtagNow(s), ValueNow(s, nul), nul)
  {
    if s.versions != [] {
      var n := |s.versions| - 1;
      assert s.versions[n].etag == EtagNow(s).value;
    }
  }

  lemma CallStepGoesOn<V>(s: Store<V>, a: Act<V>, nul: V, merge: (V, V) -> V)
    requires StoreInv(s, nul, merge) && Allowed(s, a)
    ensures CallGoesOn(s, a, Perform(s, a, nul, merge), nul, merge)
  {
    hide WasRead, NothingSince, ChainOk, IsCurrent;
    NowIsCurrent(s, nul);
    if a.Write? || a.WriteMerged? {
      var k := s.calls[a.c];
      assert CallOk(s, k, nul);
      NothingSinceIsCurrent(s, k.etag, k.value, nul);
    }
  }

  /** Over any interleaving, every step of every call is as `CallGoesOn` has it. */
  lemma WritesHappenExactlyWhen<V>(acts: seq<Act<V>>, a: Act<V>, nul: V, merge: (V, V) -> V)
    requires Exec(NewStore<V>(), acts, nul, merge).Some?
    requires Allowed(Exec(NewStore<V>(), acts, nul, merge).value, a)
    ensures var s := Exec(NewStore<V>(), acts, nul, merge).value;
      CallGoesOn(s, a, Perform(s, a, nul, merge), nul, merge)
  {
    hide CallGoesOn, StoreInv, Perform, Allowed;
    NewStoreOk(nul, merge);
    StoreRun(NewStore<V>(), acts, nul, merge);
    CallStepGoesOn(Exec(NewStore<V>(), acts, nul, merge).value, a, nul, merge);
  }

  lemma NewStoreOk<V>(nul: V, merge: (V, V) -> V)
    ensures StoreInv(NewStore<V>(), nul, merge)
  {
  }

  // ---------------------------------------------------------------- no lost update

  ghost predicate Preorder<V(!new)>(le: (V, V) -> bool) {
    && (forall x :: le(x, x))
    && (forall x, y, z {:trigger le(x, y), le(y, z)} :: le(x, y) && le(y, z) ==> le(x, z))
  }

  ghost predicate UpperBound<V(!new)>(le: (V, V) -> bool, merge: (V, V) -> V) {
    forall x, y :: le(x, merge(x, y)) && le(y, merge(x, y))
  }

  ghost predicate Inflationary<V(!new)>(le: (V, V) -> bool, acts: seq<Act<V>>) {
    forall a, x :: a in acts && a.Write? ==> le(x, a.f(x))
  }

  ghost predicate Rising<V>(s: Store<V>, le: (V, V) -> bool) {
    forall i, j :: 0 <= i <= j < |s.versions| ==> le(s.versions[i].value, s.versions[j].value)
  }

  /** A version at or above the last keeps the versions rising. */
  lemma RisingPush<V(!new)>(s: Store<V>, s': Store<V>, le: (V, V) -> bool)
    requires Rising(s, le) && Preorder(le)
    requires |s'.versions| == |s.versions| + 1 && s'.versions[..|s.versions|] == s.versions
    requires s.versions != [] ==> le(Last(s.versions).value, Last(s'.versions).value)
    ensures Rising(s', le)
  {
    var n := |s.versions|;
    assert forall i :: 0 <= i < n ==> s'.versions[i] == s'.versions[..n][i] == s.versions[i];
    forall i, j | 0 <= i <= j <= n
      ensures le(s'.versions[i].value, s'.versions[j].value)
    {
      if i < j == n {
        assert le(s.versions[i].value, s.versions[n - 1].value);
      }
    }
  }

  lemma RisingStep<V(!new)>(s: Store<V>, a: Act<V>, nul: V, merge: (V, V) -> V, le: (V, V) -> bool)
    requires StoreInv(s, nul, merge) && Allowed(s, a) && Rising(s, le)
    requires Preorder(le) && UpperBound(le, merge)
    requires a.Write? ==> forall x :: le(x, a.f(x))
    ensures Rising(Perform(s, a, nul, merge), le)
  {
    var s' := Perform(s, a, nul, merge);
    ChainStep(s, a, nul, merge);
    if s'.versions != s.versions {
      var n := |s.versions|;
      assert |s'.versions| == n + 1;
      assert le(Before(s', n, nul), s'.versions[n].value);
      RisingPush(s, s', le);
    }
  }

  lemma {:induction false} RisingRun<V(!new)>(s: Store<V>, acts: seq<Act<V>>, nul: V, merge: (V, V) -> V,
      le: (V, V) -> bool)
    requires StoreInv(s, nul, merge) && Exec(s, acts, nul, merge).Some? && Rising(s, le)
    requires Preorder(le) && UpperBound(le, merge) && Inflationary(le, acts)
    ensures Rising(Exec(s, acts, nul, merge).value, le)
    decreases |acts|
  {
    if acts != [] {
      assert acts[0] in acts && forall a :: a in acts[1..] ==> a in acts;
      StoreStep(s, acts[0], nul, merge);
      RisingStep(s, acts[0], nul, merge, le);
      RisingRun(Perform(s, acts[0], nul, merge), acts[1..], nul, merge, le);
    }
  }

  /** Nothing that was acknowledged is missing: the stored value contains what every successful
    * call returned, and every such caller's own mutation of what it read. */
  ghost predicate NothingLost<V>(s: Store<V>, nul: V, le: (V, V) -> bool) {
    forall c :: 0 <= c < |s.calls| && s.calls[c].Returned? ==>
      le(s.calls[c].value, ValueNow(s, nul)) && le(s.calls[c].local, ValueNow(s, nul))
  }

  /** No lost update. If every mutation only adds to what it was given and merge keeps both of
    * its arguments, then under any interleaving nothing acknowledged is lost. */
  lemma NoLostUpdate<V(!new)>(acts: seq<Act<V>>, nul: V, merge: (V, V) -> V, le: (V, V) -> bool)
    requires Preorder(le) && UpperBound(le, merge) && Inflationary(le, acts)
    requires Exec(NewStore<V>(), acts, nul, merge).Some?
    ensures NothingLost(Exec(NewStore<V>(), acts, nul, merge).value, nul, le)
  {
    StoreRun(NewStore<V>(), acts, nul, merge);
    RisingRun(NewStore<V>(), acts, nul, merge, le);
    var s := Exec(NewStore<V>(), acts, nul, merge).value;
    forall c | 0 <= c < |s.calls| && s.calls[c].Returned?
      ensures le(s.calls[c].value, ValueNow(s, nul)) && le(s.calls[c].local, ValueNow(s, nul))
    {
      ReturnedIsBelow(s, nul, merge, le, c);
    }
  }

  lemma ReturnedIsBelow<V(!new)>(s: Store<V>, nul: V, merge: (V, V) -> V, le: (V, V) -> bool, c: nat)
    requires StoreInv(s, nul, merge) && Rising(s, le) && Preorder(le) && UpperBound(le, merge)
    requires c < |s.calls| && s.calls[c].Returned?
    ensures le(s.calls[c].value, ValueNow(s, nul)) && le(s.calls[c].local, ValueNow(s, nul))
  {
    var value, local := s.calls[c].value, s.calls[c].local;
    assert CallOk(s, s.calls[c], nul);
    var i :| 0 <= i < |s.versions| && Stands(s.versions[i], value, local);
    assert MadeFrom(s.versions[i], Before(s, i, nul), merge);
    assert le(local, value);
    assert le(s.versions[i].value, s.versions[|s.versions| - 1].value);
  }

  ghost predicate Least<V(!new)>(le: (V, V) -> bool, nul: V) {
    forall x :: le(nul, x)
  }

  /** A run of `acts` in which mutations only add keeps everything. */
  ghost predicate Keeps<V(!new)>(acts: seq<Act<V>>, nul: V, merge: (V, V) -> V, le: (V, V) -> bool) {
    Inflationary(le, acts) && Exec(NewStore<V>(), acts, nul, merge).Some? ==>
      NothingLost(Exec(NewStore<V>(), acts, nul, merge).value, nul, le)
  }

  /** The condition on merge is the right one: where a missing resource is the least value, nothing
    * acknowledged is lost in any run exactly when merge is above both of its arguments. */
  lemma NothingIsLostExactlyWhen<V(!new)>(nul: V, merge: (V, V) -> V, le: (V, V) -> bool)
    requires Preorder(le) && Least(le, nul)
    ensures (forall acts: seq<Act<V>> :: Keeps(acts, nul, merge, le)) <==> UpperBound(le, merge)
  {
    if UpperBound(le, merge) {
      forall acts: seq<Act<V>>
        ensures Keeps(acts, nul, merge, le)
      {
        if Inflationary(le, acts) && Exec(NewStore<V>(), acts, nul, merge).Some? {
          NoLostUpdate(acts, nul, merge, le);
        }
      }
    }
    if forall acts: seq<Act<V>> :: Keeps(acts, nul, merge, le) {
      forall x, y
        ensures le(x, merge(x, y)) && le(y, merge(x, y))
      {
        var acts := ConflictRun(nul, merge, le, x, y);
        assert Keeps(acts, nul, merge, le);
      }
    }
  }

  /** The default merge, which keeps the local value, loses nothing only where there is nothing to
    * lose: if every value is below every other. */
  lemma DefaultMergeKeepsExactlyWhen<V(!new)>(nul: V, keepLocal: (V, V) -> V, le: (V, V) -> bool)
    requires Preorder(le) && Least(le, nul) && forall x, y :: keepLocal(x, y) == y
    ensures (forall acts: seq<Act<V>> :: Keeps(acts, nul, keepLocal, le)) <==> forall x, y :: le(x, y)
  {
    NothingIsLostExactlyWhen(nul, keepLocal, le);
    if UpperBound(le, keepLocal) {
      forall x, y
        ensures le(x, y)
      {
        assert le(x, keepLocal(x, y));
      }
    }
  }

  /** Two clients read the empty resource. */
  lemma TwoReads<V>(nul: V, merge: (V, V) -> V)
    ensures Exec(NewStore<V>(), [Open, Open, Read(0), Read(1)], nul, merge)
      == Some(Store([], 0, [HasRead(None, nul), HasRead(None, nul)]))
  {
    var s0 := NewStore<V>();
    var acts: seq<Act<V>> := [Open, Open, Read(0), Read(1)];
    var s1 := Perform(s0, Open, nul, merge);
    var s2 := Perform(s1, Open, nul, merge);
    var s3 := Perform(s2, Read(0), nul, merge);
    assert s2.calls == [Ready, Ready];
    assert s3.calls == [HasRead(None, nul), Ready];
    assert Perform(s3, Read(1), nul, merge).calls == [HasRead(None, nul), HasRead(None, nul)];
    ExecUnfold(s0, acts, nul, merge);
    ExecUnfold(s1, acts[1..], nul, merge);
    ExecUnfold(s2, acts[2..], nul, merge);
    ExecUnfold(s3, acts[3..], nul, merge);
  }

  /** Both write, the first conflicts with the second and merges. */
  lemma TwoWrites<V>(nul: V, merge: (V, V) -> V, f: V -> V, g: V -> V)
    ensures
      var acts := [Write(1, g), Write(0, f), Reread(0), WriteMerged(0)];
      var m := merge(g(nul), f(nul));
      var r := Exec(Store([], 0, [HasRead(None, nul), HasRead(None, nul)]), acts, nul, merge);
      && r.Some? && ValueNow(r.value, nul) == m
      && r.value.calls == [Returned(m, f(nul)), Returned(g(nul), g(nul))]
  {
    var acts := [Write(1, g), Write(0, f), Reread(0), WriteMerged(0)];
    var s4: Store<V> := Store([], 0, [HasRead(None, nul), HasRead(None, nul)]);
    var s5 := Perform(s4, Write(1, g), nul, merge);
    assert s5.versions == [Version(1, g(nul), ByMutate(g))];
    assert s5.calls == [HasRead(None, nul), Returned(g(nul), g(nul))];
    var s6 := Perform(s5, Write(0, f), nul, merge);
    assert s6.calls == [Conflicted(f(nul)), Returned(g(nul), g(nul))] && s6.versions == s5.versions;
    var s7 := Perform(s6, Reread(0), nul, merge);
    assert s7.calls == [HasReread(Some(1), g(nul), f(nul)), Returned(g(nul), g(nul))];
    var s8 := Perform(s7, WriteMerged(0), nul, merge);
    assert s8.calls == [Returned(merge(g(nul), f(nul)), f(nul)), Returned(g(nul), g(nul))];
    ExecUnfold(s4, acts, nul, merge);
    ExecUnfold(s5, acts[1..], nul, merge);
    ExecUnfold(s6, acts[2..], nul, merge);
    ExecUnfold(s7, acts[3..], nul, merge);
  }

  lemma {:induction false} ExecConcat<V>(s: Store<V>, a: seq<Act<V>>, b: seq<Act<V>>, nul: V, merge: (V, V) -> V)
    requires Exec(s, a, nul, merge).Some?
    ensures Exec(s, a + b, nul, merge) == Exec(Exec(s, a, nul, merge).value, b, nul, merge)
    decreases |a|
  {
    if a == [] {
      assert a + b == b;
    } else {
      assert (a + b)[1..] == a[1..] + b;
      ExecConcat(Perform(s, a[0], nul, merge), a[1..], b, nul, merge);
    }
  }

  /** Two calls on an empty resource, one of which conflicts with the other. */
  function Conflict<V>(f: V -> V, g: V -> V): seq<Act<V>> {
    [Open, Open, Read(0), Read(1)] + [Write(1, g), Write(0, f), Reread(0), WriteMerged(0)]
  }

  lemma ConflictMerges<V>(nul: V, merge: (V, V) -> V, f: V -> V, g: V -> V)
    ensures
      var m := merge(g(nul), f(nul));
      var r := Exec(NewStore<V>(), Conflict(f, g), nul, merge);
      && r.Some? && ValueNow(r.value, nul) == m
      && r.value.calls == [Returned(m, f(nul)), Returned(g(nul), g(nul))]
  {
    var opening: seq<Act<V>> := [Open, Open, Read(0), Read(1)];
    TwoReads(nul, merge);
    TwoWrites(nul, merge, f, g);
    ExecConcat(NewStore<V>(), opening, [Write(1, g), Write(0, f), Reread(0), WriteMerged(0)], nul, merge);
  }

  /** For any two values there is a run that ends with their merge, one acknowledged as returned
    * and the other as what a caller had made of the empty resource. */
  lemma ConflictRun<V(!new)>(nul: V, merge: (V, V) -> V, le: (V, V) -> bool, x: V, y: V) returns (acts: seq<Act<V>>)
    requires Preorder(le) && Least(le, nul)
    ensures Inflationary(le, acts) && Exec(NewStore<V>(), acts, nul, merge).Some?
    ensures NothingLost(Exec(NewStore<V>(), acts, nul, merge).value, nul, le) ==>
      le(x, merge(x, y)) && le(y, merge(x, y))
  {
    var f := (v: V) => if v == nul then y else v;
    var g := (v: V) => if v == nul then x else v;
    acts := Conflict(f, g);
    ConflictMerges(nul, merge, f, g);
    var s := Exec(NewStore<V>(), acts, nul, merge).value;
    assert s.calls[0].local == y && s.calls[1].value == x;
    forall a, v | a in acts && a.Write?
      ensures le(v, a.f(v))
    {
      assert a.f == f || a.f == g;
    }
  }

  /** With the default merge, two clients that each add an element to a set end with one of the two
    * acknowledged additions gone. */
  lemma DefaultMergeLosesAnUpdate(add1: set<int> -> set<int>, add2: set<int> -> set<int>,
      keepLocal: (set<int>, set<int>) -> set<int>)
    requires forall x :: add1(x) == x + {1}
    requires forall x :: add2(x) == x + {2}
    requires forall x, y :: keepLocal(x, y) == y
    ensures
      var r := Exec(NewStore<set<int>>(), Conflict(add1, add2), {}, keepLocal);
      r.Some? && r.value.calls == [Returned({1}, {1}), Returned({2}, {2})] && ValueNow(r.value, {}) == {1}
  {
    assert add2({}) == {2} && add1({}) == {1};
    ConflictMerges({}, keepLocal, add1, add2);
  }

  lemma ExecUnfold<V>(s: Store<V>, acts: seq<Act<V>>, nul: V, merge: (V, V) -> V)
    requires acts != [] && Allowed(s, acts[0])
    ensures Exec(s, acts, nul, merge) == Exec(Perform(s, acts[0], nul, merge), acts[1..], nul, merge)
    ensures |acts| == 1 ==> Exec(s, acts, nul, merge) == Some(Perform(s, acts[0], nul, merge))
  {
  }

  // ---------------------------------------------------------------- locks

  /** The mutation lock of one resource: who holds it and until when. A section is one
    * `withLock` call that was granted: its owner id and the end of its grant. */
  datatype Lock = Lock(owner: string, expiresAt: int)

  datatype Section = Section(owner: string, until: int, inside: bool)

  datatype Guarded = Guarded(lock: Option<Lock>, sections: seq<Section>, now: int)

  datatype LockAct = Tick(dt: nat) | Acquire(owner: string, ttl: nat) | Leave(n: nat) | Sweep

  predicate LockAllowed(g: Guarded, a: LockAct) {
    a.Leave? ==> a.n < |g.sections| && g.sections[a.n].inside
  }

  predicate Held(g: Guarded) {
    g.lock.Some? && g.lock.value.expiresAt > g.now
  }

  function LockStep(g: Guarded, a: LockAct): Guarded
    requires LockAllowed(g, a)
  {
    match a
    case Tick(dt) => g.(now := g.now + dt)
    case Acquire(owner, ttl) =>
      if Held(g) then g
      else g.(lock := Some(Lock(owner, g.now + ttl)), sections := g.sections + [Section(owner, g.now + ttl, true)])
    case Leave(n) =>
      var s := g.sections[n];
      var left := g.(sections := g.sections[n := s.(inside := false)]);
      if g.lock.Some? && g.lock.value.owner == s.owner then left.(lock := None) else left
    case Sweep => if g.lock.Some? && !Held(g) then g.(lock := None) else g
  }

  function LockRun(g: Guarded, acts: seq<LockAct>): Option<Guarded>
    decreases |acts|
  {
    if acts == [] then Some(g)
    else if LockAllowed(g, acts[0]) then LockRun(LockStep(g, acts[0]), acts[1..])
    else None
  }

  /** Inside its critical section with the grant still running. */
  predicate Within(g: Guarded, n: nat) {
    n < |g.sections| && g.sections[n].inside && g.sections[n].until > g.now
  }

  ghost predicate OwnersDiffer(g: Guarded) {
    forall n, m :: 0 <= n < m < |g.sections| ==> g.sections[n].owner != g.sections[m].owner
  }

  /** No two sections are inside with both grants still running. */
  ghost predicate Exclusive(g: Guarded) {
    forall n: nat, m: nat :: Within(g, n) && Within(g, m) ==> n == m
  }

  /** Exclusion, with the running section covered by the lock. */
  ghost predicate LockInv(g: Guarded) {
    && (forall n: nat :: Within(g, n) ==> g.lock == Some(Lock(g.sections[n].owner, g.sections[n].until)))
    && Exclusive(g)
  }

  /** The step is a section leaving while another section of the same owner is inside and its grant
    * runs: unlocking goes by the owner id, so it takes the other one's lock away. */
  ghost predicate Disowns(g: Guarded, a: LockAct) {
    && a.Leave? && a.n < |g.sections|
    && exists m: nat :: m != a.n && Within(g, m) && g.sections[m].owner == g.sections[a.n].owner
  }

  /** Exclusion under cover of the lock is kept by every step but that one. */
  lemma CoverFailsExactlyWhen(g: Guarded, a: LockAct)
    requires LockInv(g) && LockAllowed(g, a)
    ensures LockInv(LockStep(g, a)) <==> !Disowns(g, a)
  {
    var g' := LockStep(g, a);
    match a
    case Leave(n) =>
      forall m: nat | Within(g', m)
        ensures Within(g, m) && m != n
      {
      }
      if m: nat :| m != n && Within(g, m) && g.sections[m].owner == g.sections[n].owner {
        assert Within(g', m);
      }
    case Acquire(owner, ttl) =>
      if !Held(g) {
        forall m: nat | Within(g', m)
          ensures m == |g.sections|
        {
          assert m < |g.sections| ==> Within(g, m);
        }
      } else {
        assert g' == g;
      }
    case Tick(_) =>
      forall m: nat | Within(g', m)
        ensures Within(g, m)
      {
      }
    case Sweep =>
      forall m: nat | Within(g', m)
        ensures Within(g, m)
      {
      }
  }

  /** No step of the run takes away another section's lock. */
  ghost predicate NeverDisowns(g: Guarded, acts: seq<LockAct>)
    decreases |acts|
  {
    acts != [] && LockAllowed(g, acts[0]) ==> !Disowns(g, acts[0]) && NeverDisowns(LockStep(g, acts[0]), acts[1..])
  }

  /** Every section of the run leaves while its own grant is running. */
  ghost predicate LeavesInTime(g: Guarded, acts: seq<LockAct>)
    decreases |acts|
  {
    acts != [] && LockAllowed(g, acts[0]) ==>
      (acts[0].Leave? ==> Within(g, acts[0].n)) && LeavesInTime(LockStep(g, acts[0]), acts[1..])
  }

  /** Whatever the owner ids: over every run in which no section leaves over another one of its
    * owner, no two are inside with both grants running. */
  lemma {:induction false} LockExcludes(g: Guarded, acts: seq<LockAct>)
    requires LockInv(g) && LockRun(g, acts).Some? && NeverDisowns(g, acts)
    ensures LockInv(LockRun(g, acts).value) && Exclusive(LockRun(g, acts).value)
    decreases |acts|
  {
    if acts != [] {
      CoverFailsExactlyWhen(g, acts[0]);
      LockExcludes(LockStep(g, acts[0]), acts[1..]);
    }
  }

  /** So it is over every run in which each section is left before its grant runs out, however often
    * an owner id takes the lock. */
  lemma {:induction false} TimelySectionsExclude(g: Guarded, acts: seq<LockAct>)
    requires LockInv(g) && LockRun(g, acts).Some? && LeavesInTime(g, acts)
    ensures NeverDisowns(g, acts) && Exclusive(LockRun(g, acts).value)
    decreases |acts|
  {
    if acts != [] {
      CoverFailsExactlyWhen(g, acts[0]);
      TimelySectionsExclude(LockStep(g, acts[0]), acts[1..]);
    }
  }

  /** The run from `g` is exclusive to its end, if it is one and takes no lock away. */
  ghost predicate StaysExclusive(g: Guarded, acts: seq<LockAct>) {
    LockRun(g, acts).Some? && NeverDisowns(g, acts) ==> Exclusive(LockRun(g, acts).value)
  }

  /** Exactly which step can break exclusion: after any other, no run that is itself without such a
    * step has two sections inside; after it there is one that has. */
  lemma ExclusionFailsExactlyWhen(g: Guarded, a: LockAct)
    requires LockInv(g) && LockAllowed(g, a)
    ensures (forall acts :: StaysExclusive(LockStep(g, a), acts)) <==> !Disowns(g, a)
  {
    var g' := LockStep(g, a);
    CoverFailsExactlyWhen(g, a);
    if Disowns(g, a) {
      AnotherIsLetIn(g, a.n);
      assert !StaysExclusive(g', [Acquire("", 1)]);
    } else {
      forall acts
        ensures StaysExclusive(g', acts)
      {
        if LockRun(g', acts).Some? && NeverDisowns(g', acts) {
          LockExcludes(g', acts);
        }
      }
    }
  }

  /** After a lock was taken away, the next caller gets in beside the section it covered. */
  lemma AnotherIsLetIn(g: Guarded, n: nat)
    requires LockInv(g) && LockAllowed(g, Leave(n)) && Disowns(g, Leave(n))
    ensures var acts := [Acquire("", 1)];
      var r := LockRun(LockStep(g, Leave(n)), acts);
      r.Some? && NeverDisowns(LockStep(g, Leave(n)), acts) && !Exclusive(r.value)
  {
    var g1 := LockStep(g, Leave(n));
    var g2 := LockStep(g1, Acquire("", 1));
    var m: nat :| m != n && Within(g, m) && g.sections[m].owner == g.sections[n].owner;
    assert g1.lock.None?;
    assert Within(g2, m) && Within(g2, |g1.sections|);
    assert LockRun(g1, [Acquire("", 1)]) == LockRun(g2, []);
    assert NeverDisowns(g2, []);
  }

  lemma {:induction false} OwnersShrink(g: Guarded, acts: seq<LockAct>)
    requires LockRun(g, acts).Some? && OwnersDiffer(LockRun(g, acts).value)
    ensures OwnersDiffer(g)
    decreases |acts|
  {
    if acts != [] {
      var g' := LockStep(g, acts[0]);
      OwnersShrink(g', acts[1..]);
      forall n, m | 0 <= n < m < |g.sections|
        ensures g.sections[n].owner != g.sections[m].owner
      {
        assert g'.sections[n].owner == g.sections[n].owner && g'.sections[m].owner == g.sections[m].owner;
      }
    }
  }

  /** One owner id for each granted call is enough too. */
  lemma {:induction false} DistinctOwnersExclude(g: Guarded, acts: seq<LockAct>)
    requires LockInv(g) && LockRun(g, acts).Some? && OwnersDiffer(LockRun(g, acts).value)
    ensures NeverDisowns(g, acts) && Exclusive(LockRun(g, acts).value)
    decreases |acts|
  {
    if acts != [] {
      OwnersShrink(g, acts);
      CoverFailsExactlyWhen(g, acts[0]);
      DistinctOwnersExclude(LockStep(g, acts[0]), acts[1..]);
    }
  }

  /** Inside its critical section, although its grant has run out. */
  predicate Overrun(g: Guarded, n: nat) {
    n < |g.sections| && g.sections[n].inside && g.sections[n].until <= g.now
  }

  predicate Inside(g: Guarded, n: nat) {
    n < |g.sections| && g.sections[n].inside
  }

  ghost predicate AtMostOneInside(g: Guarded) {
    forall n: nat, m: nat :: Inside(g, n) && Inside(g, m) ==> n == m
  }

  /** Of all sections, whether their grants run or not, over any run that takes no lock away: at most
    * one is inside exactly when every section that has overrun is alone. */
  lemma OneIsInsideExactlyWhen(g: Guarded, acts: seq<LockAct>)
    requires LockInv(g) && LockRun(g, acts).Some? && NeverDisowns(g, acts)
    ensures
      var r := LockRun(g, acts).value;
      AtMostOneInside(r) <==> (forall n: nat, m: nat :: Overrun(r, n) && Inside(r, m) ==> n == m)
  {
    LockExcludes(g, acts);
    var r := LockRun(g, acts).value;
    if forall n: nat, m: nat :: Overrun(r, n) && Inside(r, m) ==> n == m {
      forall n: nat, m: nat | Inside(r, n) && Inside(r, m)
        ensures n == m
      {
        assert Overrun(r, n) || Within(r, n);
        assert Overrun(r, m) || Within(r, m);
      }
    }
    assert forall n: nat :: Overrun(r, n) ==> Inside(r, n);
  }

  /** A section that overruns its grant need not be alone: here it is inside with the next one. */
  lemma AnOverrunLetsTheNextIn()
    ensures
      var acts := [Acquire("x", 1), Tick(1), Acquire("y", 5)];
      var g := Guarded(None, [], 0);
      var r := LockRun(g, acts);
      r.Some? && NeverDisowns(g, acts) && Overrun(r.value, 0) && Within(r.value, 1)
  {
    var g1 := LockStep(Guarded(None, [], 0), Acquire("x", 1));
    var g2 := LockStep(g1, Tick(1));
    var g3 := LockStep(g2, Acquire("y", 5));
    assert g1.sections == [Section("x", 1, true)];
    assert g3.sections == [Section("x", 1, true), Section("y", 6, true)];
    assert LockRun(g2, [Acquire("y", 5)]) == LockRun(g3, []);
    assert LockRun(g1, [Tick(1), Acquire("y", 5)]) == LockRun(g2, [Acquire("y", 5)]);
    assert NeverDisowns(g3, []);
    assert NeverDisowns(g2, [Acquire("y", 5)]);
    assert NeverDisowns(g1, [Tick(1), Acquire("y", 5)]);
  }

  /** One owner id used twice: the first section overruns its grant, and leaving releases the
    * second one's lock, so a third caller is let in beside it. */
  lemma SharedOwnerBreaksExclusion()
    ensures
      var acts := [Acquire("x", 1), Tick(1), Acquire("x", 5), Leave(0), Acquire("y", 5)];
      var r := LockRun(Guarded(None, [], 0), acts);
      r.Some? && Within(r.value, 1) && Within(r.value, 2)
  {
    var g1 := LockStep(Guarded(None, [], 0), Acquire("x", 1));
    var g2 := LockStep(g1, Tick(1));
    var g3 := LockStep(g2, Acquire("x", 5));
    var g4 := LockStep(g3, Leave(0));
    var g5 := LockStep(g4, Acquire("y", 5));
    assert g3.sections == [Section("x", 1, true), Section("x", 6, true)];
    assert g5.sections == [Section("x", 1, false), Section("x", 6, true), Section("y", 6, true)];
    assert LockRun(g4, [Acquire("y", 5)]) == LockRun(g5, []);
    assert LockRun(g3, [Leave(0), Acquire("y", 5)]) == LockRun(g4, [Acquire("y", 5)]);
    assert LockRun(g2, [Acquire("x", 5), Leave(0), Acquire("y", 5)]) == LockRun(g3, [Leave(0), Acquire("y", 5)]);
    assert LockRun(g1, [Tick(1), Acquire("x", 5), Leave(0), Acquire("y", 5)]) ==
        LockRun(g2, [Acquire("x", 5), Leave(0), Acquire("y", 5)]);
  }

  // ---------------------------------------------------------------- the in-memory backend

  class Backend<V(==)> {
    var resources: map<string, (nat, V)>
    var locks: map<string, Lock>
    var etagCounter: nat

    constructor ()
      ensures resources == map[] && locks == map[] && etagCounter == 0
    {
      resources, locks, etagCounter := map[], map[], 0;
    }

    function EtagOf(id: string): Option<nat>
      reads this
    {
      if id in resources then Some(resources[id].0) else None
    }

    /** The resource is as in `s`. */
    ghost predicate Stores(id: string, s: Store<V>)
      reads this
    {
      && etagCounter == s.counter
      && if id in resources then s.versions != [] && resources[id] == (Last(s.versions).etag, Last(s.versions).value)
         else s.versions == []
    }

    /** The lock is as in `g`. */
    ghost predicate Locks(id: string, g: Guarded)
      reads this
    {
      g.lock == if id in locks then Some(locks[id]) else None
    }

    /** What is read is the machine's current etag and value, and an expired lock is swept. */
    method Get(id: string, now: int, ghost s: Store<V>, ghost nul: V, ghost g: Guarded) returns (r: Option<(nat, V)>)
      modifies this`locks
      ensures Stores(id, s) ==> EtagNow(s) == (if r.Some? then Some(r.value.0) else None)
      ensures Stores(id, s) ==> ValueNow(s, nul) == (if r.Some? then r.value.1 else nul)
      ensures old(Locks(id, g)) && g.now == now ==> Locks(id, LockStep(g, Sweep))
      ensures r == if id in resources then Some(resources[id]) else None
      ensures locks == if id in old(locks) && old(locks)[id].expiresAt <= now then old(locks) - {id} else old(locks)
    {
      if id in locks && locks[id].expiresAt <= now {
        locks := locks - {id};
      }
      r := if id in resources then Some(resources[id]) else None;
    }

    /** The conditional write happens exactly when the expected etag is the current one; then
      * the resource holds the value under a new etag, and nothing else changes. */
    method PutIf(id: string, value: V, expected: Option<nat>, ghost s: Store<V>, ghost how: How<V>)
      returns (etag: nat, conflict: bool)
      modifies this`resources, this`etagCounter
      ensures old(Stores(id, s)) ==> Stores(id, Put(s, expected, value, how)) && (conflict <==> expected != EtagNow(s))
      ensures conflict <==> expected != old(EtagOf(id))
      ensures conflict ==> resources == old(resources) && etagCounter == old(etagCounter)
      ensures !conflict ==>
          etag == old(etagCounter) + 1 == etagCounter && resources == old(resources)[id := (etag, value)]
    {
      if id in resources {
        if Some(resources[id].0) != expected {
          return resources[id].0, true;
        }
      } else if expected.Some? {
        return expected.value, true;
      }
      etagCounter := etagCounter + 1;
      etag, conflict := etagCounter, false;
      resources := resources[id := (etag, value)];
    }

    /** The machine's `Acquire`. */
    method TryLock(id: string, owner: string, now: int, ttl: nat, ghost g: Guarded)
        returns (locked: bool, holder: string)
      modifies this`locks
      ensures old(Locks(id, g)) && g.now == now ==>
        var g' := LockStep(g, Acquire(owner, ttl));
        Locks(id, g') && (locked <==> g'.sections != g.sections)
      ensures locked <==> !(id in old(locks) && old(locks)[id].expiresAt > now)
      ensures !locked ==> locks == old(locks) && holder == old(locks)[id].owner
      ensures locked ==> locks == old(locks)[id := Lock(owner, now + ttl)]
    {
      if id in locks && locks[id].expiresAt > now {
        return false, locks[id].owner;
      }
      locks := locks[id := Lock(owner, now + ttl)];
      locked, holder := true, owner;
    }

    /** The machine's `Leave`, of a section with that owner id. */
    method Unlock(id: string, owner: string, ghost g: Guarded, ghost n: nat)
      modifies this`locks
      ensures old(Locks(id, g)) && LockAllowed(g, Leave(n)) && g.sections[n].owner == owner ==>
        Locks(id, LockStep(g, Leave(n)))
      ensures locks == if id in old(locks) && old(locks)[id].owner == owner then old(locks) - {id} else old(locks)
    {
      if id in locks && locks[id].owner == owner {
        locks := locks - {id};
      }
    }
  }
}

/**
 * The synchronization classifier of org.eclipse.team.core.sync.SyncInfo.
 *
 * A sync info relates a local resource (always a handle, which may or may not exist), an optional
 * base (common ancestor) and an optional remote. `GetSyncKind` is the Java decision tree; its
 * result is the Java `int` bit set, modelled as a 32-bit bit-vector. The comparison criterion of
 * the subscriber is a pure function parameter `cmp`, and the classification also records, in
 * order, the pairs it handed to the criterion, so that the laziness of the tree can be stated.
 *
 * The specification of the tree is `Classify`, an independent reference classification in terms of what each side did
 * relative to the base: differences between base and local are outgoing, differences between base
 * and remote are incoming, and both at once are conflicting.
 */
module SyncInfo {
  import opened Wrappers

  /** The Java `int` holding a sync descriptor. */
  type SyncKind = bv32

  // Change kinds (two low bits).
  const IN_SYNC: SyncKind := 0
  const ADDITION: SyncKind := 1
  const DELETION: SyncKind := 2
  const CHANGE: SyncKind := 3
  const CHANGE_MASK: SyncKind := CHANGE

  // Directions (next two bits).
  const OUTGOING: SyncKind := 4
  const INCOMING: SyncKind := 8
  const CONFLICTING: SyncKind := 12
  const DIRECTION_MASK: SyncKind := CONFLICTING

  // Conflict refinements.
  const PSEUDO_CONFLICT: SyncKind := 16
  const AUTOMERGE_CONFLICT: SyncKind := 32
  const MANUAL_CONFLICT: SyncKind := 64

  /** The handles of a sync info: the local handle and whether it exists, the base and the remote. */
  datatype Triple<H> = Triple(local: H, localExists: bool, base: Option<H>, remote: Option<H>)

  /** A descriptor together with the pairs, in call order, that were handed to the criterion. */
  datatype Classification<H> = Classification(kind: SyncKind, compared: seq<(H, H)>)

  /**
   * The triples the classifier accepts: the Java code asserts false when the local resource does
   * not exist and there is nothing else to compare with (no base and no remote in three-way mode,
   * no remote in two-way mode).
   */
  predicate Classifiable<H>(t: Triple<H>, threeWay: bool) {
    if threeWay then t.localExists || t.base.Some? || t.remote.Some?
    else t.localExists || t.remote.Some?
  }

  /** `h` is a handle of `t` that stands for an existing resource. */
  predicate Existing<H(==)>(t: Triple<H>, h: H) {
    (t.localExists && h == t.local) || t.base == Some(h) || t.remote == Some(h)
  }

  /** SyncInfo.getSyncKind: the three-way and two-way decision trees. */
  function GetSyncKind<H(==)>(t: Triple<H>, threeWay: bool, cmp: (H, H) -> bool): (c: Classification<H>)
    requires Classifiable(t, threeWay)
    ensures c.kind == Encode(Classify(t, threeWay, cmp))
    ensures c.kind & (AUTOMERGE_CONFLICT | MANUAL_CONFLICT) == 0
    ensures c.kind & PSEUDO_CONFLICT != 0 ==> c.kind & DIRECTION_MASK == CONFLICTING
    ensures !threeWay ==> c.kind & DIRECTION_MASK == 0
    ensures threeWay && c.kind != IN_SYNC ==> c.kind & CHANGE_MASK != 0 && c.kind & DIRECTION_MASK != 0
    ensures |c.compared| <= 2
    ensures forall i :: 0 <= i < |c.compared| ==> Existing(t, c.compared[i].0) && Existing(t, c.compared[i].1)
  {
    if threeWay then
      if t.base.None? then
        if t.remote.None? then
          Classification(OUTGOING | ADDITION, [])
        else if !t.localExists then
          Classification(INCOMING | ADDITION, [])
        else
          var r := t.remote.value;
          var kind := CONFLICTING | ADDITION;
          Classification(if cmp(t.local, r) then kind | PSEUDO_CONFLICT else kind, [(t.local, r)])
      else
        var b := t.base.value;
        if !t.localExists then
          if t.remote.None? then
            Classification(CONFLICTING | DELETION | PSEUDO_CONFLICT, [])
          else
            var r := t.remote.value;
            Classification(if cmp(b, r) then OUTGOING | DELETION else CONFLICTING | CHANGE, [(b, r)])
        else if t.remote.None? then
          Classification(if cmp(t.local, b) then INCOMING | DELETION else CONFLICTING | CHANGE, [(t.local, b)])
        else
          var r := t.remote.value;
          var ay := cmp(t.local, b);
          var am := cmp(b, r);
          var kind :=
            if ay && am then IN_SYNC
            else if ay && !am then INCOMING | CHANGE
            else if !ay && am then OUTGOING | CHANGE
            else CONFLICTING | CHANGE;
          Classification(kind, [(t.local, b), (b, r)])
    else
      if t.remote.None? then
        Classification(DELETION, [])
      else if !t.localExists then
        Classification(ADDITION, [])
      else
        var r := t.remote.value;
        Classification(if !cmp(t.local, r) then CHANGE else IN_SYNC, [(t.local, r)])
  }

  /** SyncInfo.isInSync. */
  predicate IsInSync<H(==)>(t: Triple<H>, threeWay: bool, cmp: (H, H) -> bool)
    requires Classifiable(t, threeWay)
    ensures IsInSync(t, threeWay, cmp) <==> Classify(t, threeWay, cmp) == InSync
    ensures IsInSync(t, threeWay, cmp) <==>
      t.localExists && t.remote.Some? &&
      if threeWay then t.base.Some? && cmp(t.local, t.base.value) && cmp(t.base.value, t.remote.value)
      else cmp(t.local, t.remote.value)
  {
    DecodeEncode(Classify(t, threeWay, cmp));
    GetSyncKind(t, threeWay, cmp).kind == IN_SYNC
  }

  /*==================================================================
   * The reference classification, as a tagged union.
   *==================================================================*/

  datatype Change = Addition | Deletion | Modification

  datatype SyncState =
    | InSync
    | Outgoing(change: Change)
    | Incoming(change: Change)
    | Conflicting(change: Change, pseudo: bool)
    | Undirected(change: Change)   // two-way mode: no base, so no direction

  /** What one side did relative to the base (`Unchanged` also when neither has the resource). */
  datatype Delta = Unchanged | Added | Deleted | Modified

  /** Outgoing delta: local compared with base. */
  function LocalDelta<H>(t: Triple<H>, cmp: (H, H) -> bool): Delta {
    match t.base
    case None => if t.localExists then Added else Unchanged
    case Some(b) => if !t.localExists then Deleted else if cmp(t.local, b) then Unchanged else Modified
  }

  /** Incoming delta: base compared with remote. */
  function RemoteDelta<H>(t: Triple<H>, cmp: (H, H) -> bool): Delta {
    match (t.base, t.remote)
    case (None, None) => Unchanged
    case (None, Some(_)) => Added
    case (Some(_), None) => Deleted
    case (Some(b), Some(r)) => if cmp(b, r) then Unchanged else Modified
  }

  function ChangeOf(d: Delta): Change
    requires d != Unchanged
  {
    match d
    case Added => Addition
    case Deleted => Deletion
    case Modified => Modification
  }

  /**
   * Combines the two deltas: one-sided deltas give a direction; two-sided ones conflict, and the
   * conflict is a pseudo-conflict when both sides deleted, or both added the same content.
   */
  function Merge(outgoing: Delta, incoming: Delta, sameContent: bool): SyncState {
    if outgoing == Unchanged && incoming == Unchanged then InSync
    else if incoming == Unchanged then Outgoing(ChangeOf(outgoing))
    else if outgoing == Unchanged then Incoming(ChangeOf(incoming))
    else if outgoing == Added && incoming == Added then Conflicting(Addition, sameContent)
    else if outgoing == Deleted && incoming == Deleted then Conflicting(Deletion, true)
    else Conflicting(Modification, false)
  }

  function Classify<H>(t: Triple<H>, threeWay: bool, cmp: (H, H) -> bool): SyncState
    requires Classifiable(t, threeWay)
  {
    if threeWay then
      var same := match t.remote case Some(r) => cmp(t.local, r) case None => false;
      Merge(LocalDelta(t, cmp), RemoteDelta(t, cmp), same)
    else
      match t.remote
      case None => Undirected(Deletion)
      case Some(r) =>
        if !t.localExists then Undirected(Addition)
        else if cmp(t.local, r) then InSync
        else Undirected(Modification)
  }

  /*==================================================================
   * Encoding of the tagged union into the bit set, and back.
   *==================================================================*/

  function ChangeBits(c: Change): SyncKind {
    match c
    case Addition => ADDITION
    case Deletion => DELETION
    case Modification => CHANGE
  }

  function Encode(s: SyncState): SyncKind {
    match s
    case InSync => IN_SYNC
    case Outgoing(c) => OUTGOING | ChangeBits(c)
    case Incoming(c) => INCOMING | ChangeBits(c)
    case Conflicting(c, p) => CONFLICTING | ChangeBits(c) | (if p then PSEUDO_CONFLICT else 0)
    case Undirected(c) => ChangeBits(c)
  }

  /** The reading of a descriptor; `None` for bit sets no classification produces. */
  function Decode(k: SyncKind): Option<SyncState> {
    var change := k & CHANGE_MASK;
    var direction := k & DIRECTION_MASK;
    var pseudo := k & PSEUDO_CONFLICT != 0;
    if k & !(CHANGE_MASK | DIRECTION_MASK | PSEUDO_CONFLICT) != 0 then None
    else if pseudo && direction != CONFLICTING then None
    else if change == 0 then (if direction == 0 then Some(InSync) else None)
    else
      var c := if change == ADDITION then Addition else if change == DELETION then Deletion else Modification;
      if direction == 0 then Some(Undirected(c))
      else if direction == OUTGOING then Some(Outgoing(c))
      else if direction == INCOMING then Some(Incoming(c))
      else Some(Conflicting(c, pseudo))
  }

  lemma DecodeEncode(s: SyncState)
    ensures Decode(Encode(s)) == Some(s)
  {
  }

  lemma EncodeDecode(k: SyncKind)
    requires Decode(k).Some?
    ensures Encode(Decode(k).value) == k
  {
  }

  /*==================================================================
   * The leaves of the tree.
   *==================================================================*/

  lemma ThreeWayNoBase<H>(t: Triple<H>, cmp: (H, H) -> bool)
    requires t.base.None? && Classifiable(t, true)
    ensures t.remote.None? ==> GetSyncKind(t, true, cmp) == Classification(OUTGOING | ADDITION, [])
    ensures t.remote.Some? && !t.localExists ==>
      GetSyncKind(t, true, cmp) == Classification(INCOMING | ADDITION, [])
    ensures t.remote.Some? && t.localExists ==>
      var c := GetSyncKind(t, true, cmp);
      && c.kind & !PSEUDO_CONFLICT == CONFLICTING | ADDITION
      && (c.kind & PSEUDO_CONFLICT != 0 <==> cmp(t.local, t.remote.value))
      && c.compared == [(t.local, t.remote.value)]
  {
  }

  lemma ThreeWayLocalOrRemoteGone<H>(t: Triple<H>, cmp: (H, H) -> bool)
    requires t.base.Some? && !(t.localExists && t.remote.Some?)
    ensures !t.localExists && t.remote.None? ==>
      GetSyncKind(t, true, cmp) == Classification(CONFLICTING | DELETION | PSEUDO_CONFLICT, [])
    ensures !t.localExists && t.remote.Some? ==>
      var am := cmp(t.base.value, t.remote.value);
      GetSyncKind(t, true, cmp) ==
        Classification(if am then OUTGOING | DELETION else CONFLICTING | CHANGE, [(t.base.value, t.remote.value)])
    ensures t.localExists && t.remote.None? ==>
      var ay := cmp(t.local, t.base.value);
      GetSyncKind(t, true, cmp) ==
        Classification(if ay then INCOMING | DELETION else CONFLICTING | CHANGE, [(t.local, t.base.value)])
  {
  }

  lemma ThreeWayAllPresent<H>(t: Triple<H>, cmp: (H, H) -> bool)
    requires t.localExists && t.base.Some? && t.remote.Some?
    ensures
      var ay := cmp(t.local, t.base.value);
      var am := cmp(t.base.value, t.remote.value);
      var c := GetSyncKind(t, true, cmp);
      && c.compared == [(t.local, t.base.value), (t.base.value, t.remote.value)]
      && (ay && am ==> c.kind == IN_SYNC)
      && (ay && !am ==> c.kind == INCOMING | CHANGE)
      && (!ay && am ==> c.kind == OUTGOING | CHANGE)
      && (!ay && !am ==> c.kind == CONFLICTING | CHANGE)
  {
  }

  lemma TwoWay<H>(t: Triple<H>, cmp: (H, H) -> bool)
    requires Classifiable(t, false)
    ensures t.remote.None? ==> GetSyncKind(t, false, cmp) == Classification(DELETION, [])
    ensures t.remote.Some? && !t.localExists ==> GetSyncKind(t, false, cmp) == Classification(ADDITION, [])
    ensures t.remote.Some? && t.localExists ==>
      var c := GetSyncKind(t, false, cmp);
      && c.kind == (if cmp(t.local, t.remote.value) then IN_SYNC else CHANGE)
      && c.compared == [(t.local, t.remote.value)]
  {
  }
}

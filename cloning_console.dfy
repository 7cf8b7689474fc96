/**
  The cloning console's record registry: Scan upserts a record keyed by the
  scanned mob's id, TryClone removes a record when the pod and the mind agree,
  ToggleLock flips the scanner's lock. Records are objects updated in place;
  their identity fields (mobID, mind, name) are modelled.
 */
module Cloning {
  import opened Wrappers

  /** The scanned player's script: the mind's identity, the body the mind belongs to, and the player's name. */
  datatype PlayerScript = PlayerScript(mind: nat, mindBodyMobID: int, playerName: string)

  /** The scanner's occupant: the mob's id and its player script. */
  datatype Mob = Mob(mobID: int, player: PlayerScript)

  /** The identity fields of a cloning record. */
  datatype RecordView = RecordView(mobID: int, mind: nat, name: string)

  /** The fields UpdateRecord copies from a mob. */
  function RecordOf(mob: Mob): RecordView
  {
    RecordView(mob.mobID, mob.player.mind, mob.player.playerName)
  }

  /** No two records share a mobID. */
  predicate DistinctMobIDs(views: seq<RecordView>)
  {
    forall i, j :: 0 <= i < j < |views| ==> views[i].mobID != views[j].mobID
  }

  /** Scan may record the occupant only when the mind's body is the scanned mob. */
  predicate OwnBody(mob: Mob)
  {
    mob.player.mindBodyMobID == mob.mobID
  }

  /** The index of the first record with the given mobID, as the search loop of Scan finds it. */
  function FirstMatch(views: seq<RecordView>, mobID: int): (r: Option<nat>)
    ensures r.Some? ==>
      && r.value < |views| && views[r.value].mobID == mobID
      && forall j :: 0 <= j < r.value ==> views[j].mobID != mobID
    ensures r.None? ==> forall j :: 0 <= j < |views| ==> views[j].mobID != mobID
  {
    if views == [] then None
    else if views[0].mobID == mobID then Some(0)
    else
      match FirstMatch(views[1..], mobID)
      case None => None
      case Some(k) => Some(k + 1)
  }

  /** The records after scanning mob: its first record is overwritten, or a new one appended. */
  function Scanned(views: seq<RecordView>, mob: Mob): (r: seq<RecordView>)
    ensures !OwnBody(mob) ==> r == views
    ensures |views| <= |r| <= |views| + 1
    ensures OwnBody(mob) ==> RecordOf(mob) in r
    // records of other mobs keep their place and their contents
    ensures forall i :: 0 <= i < |views| && views[i].mobID != mob.mobID ==> r[i] == views[i]
    // the list only grows when the mob had no record
    ensures |r| == |views| + 1 <==> OwnBody(mob) && forall i :: 0 <= i < |views| ==> views[i].mobID != mob.mobID
  {
    if !OwnBody(mob) then views
    else
      match FirstMatch(views, mob.mobID)
      case Some(k) =>
        var r := views[k := RecordOf(mob)];
        assert r[k] == RecordOf(mob);
        r
      case None => views + [RecordOf(mob)]
  }

  /** Scanning keeps mobIDs pairwise distinct, and afterwards the mob's only record is the fresh one. */
  lemma ScanKeepsMobIDsDistinct(views: seq<RecordView>, mob: Mob)
    requires DistinctMobIDs(views)
    ensures DistinctMobIDs(Scanned(views, mob))
    ensures OwnBody(mob) ==>
      forall i :: 0 <= i < |Scanned(views, mob)| && Scanned(views, mob)[i].mobID == mob.mobID ==>
        Scanned(views, mob)[i] == RecordOf(mob)
  {}

  /** Scanning the same occupant twice is the same as scanning it once. */
  lemma ScanIdempotent(views: seq<RecordView>, mob: Mob)
    ensures Scanned(Scanned(views, mob), mob) == Scanned(views, mob)
  {
    var r := Scanned(views, mob);
    if OwnBody(mob) {
      match FirstMatch(views, mob.mobID)
      case Some(k) =>
        assert forall j :: 0 <= j < k ==> r[j] == views[j];
        assert r[k] == RecordOf(mob);
        var k' := FirstMatch(r, mob.mobID);
        assert k'.Some? && k'.value <= k;
        assert k' == Some(k);
      case None =>
        assert forall j :: 0 <= j < |views| ==> r[j] == views[j];
        var k' := FirstMatch(r, mob.mobID);
        assert k' == Some(|views|);
    }
  }

  /** The index of the first occurrence of x (List.IndexOf). */
  function IndexOf<T(==)>(s: seq<T>, x: T): (r: Option<nat>)
    ensures r.Some? ==> r.value < |s| && s[r.value] == x && x !in s[..r.value]
    ensures r.None? <==> x !in s
  {
    if s == [] then None
    else if s[0] == x then Some(0)
    else
      match IndexOf(s[1..], x)
      case None => None
      case Some(k) =>
        assert s[1..][..k] == s[1..k + 1];
        assert s[..k + 1] == [s[0]] + s[1..k + 1];
        Some(k + 1)
  }

  /** The list without its first occurrence of x (List.Remove); unchanged when x is absent. */
  function RemoveFirst<T(==)>(s: seq<T>, x: T): (r: seq<T>)
    ensures x !in s ==> r == s
    ensures x in s ==> |r| == |s| - 1 && multiset(r) == multiset(s) - multiset{x}
    // it is the first occurrence that goes, and the rest keep their order
    ensures x in s ==> exists k :: 0 <= k < |s| && s[k] == x && x !in s[..k] && r == s[..k] + s[k + 1..]
  {
    match IndexOf(s, x)
    case None => s
    case Some(k) =>
      assert s == s[..k] + [s[k]] + s[k + 1..];
      s[..k] + s[k + 1..]
  }

  class DNAScanner {
    var isClosed: bool
    var isLocked: bool
    var occupant: Option<Mob>

    constructor (isClosed: bool, isLocked: bool, occupant: Option<Mob>)
      ensures this.isClosed == isClosed && this.isLocked == isLocked && this.occupant == occupant
    {
      this.isClosed := isClosed;
      this.isLocked := isLocked;
      this.occupant := occupant;
    }
  }

  class CloningRecord {
    var mobID: int
    var mind: nat
    var name: string

    function View(): RecordView
      reads this
    {
      RecordView(mobID, mind, name)
    }

    /** A blank record; the random scan id is not modelled. */
    constructor ()
      ensures View() == RecordView(0, 0, "")
    {
      mobID := 0;
      mind := 0;
      name := "";
    }

    /** Copies the identity fields of the mob and its player into this record. */
    method UpdateRecord(mob: Mob)
      modifies this
      ensures View() == RecordOf(mob)
    {
      mobID := mob.mobID;
      mind := mob.player.mind;
      name := mob.player.playerName;
    }
  }

  class CloningConsole {
    var records: seq<CloningRecord>
    var scanner: DNAScanner?

    /** The records' identity fields, in list order. */
    ghost function Contents(): (views: seq<RecordView>)
      reads this, records
      ensures |views| == |records|
      ensures forall i :: 0 <= i < |records| ==> views[i] == records[i].View()
    {
      seq(|records|, i reads this, records requires 0 <= i < |records| => records[i].View())
    }

    /** The registry invariant: no two records share a mobID. */
    ghost predicate Valid()
      reads this, records
    {
      DistinctMobIDs(Contents())
    }

    /** Distinct mobIDs make the record objects distinct, so updating one leaves the others alone. */
    lemma RecordsDistinct()
      requires Valid()
      ensures forall i, j :: 0 <= i < j < |records| ==> records[i] != records[j]
    {}

    constructor (scanner: DNAScanner?)
      ensures Valid() && records == [] && this.scanner == scanner
    {
      records := [];
      this.scanner := scanner;
    }

    /** Flips the lock only when a scanner is present and closed. */
    method ToggleLock()
      modifies scanner
      ensures scanner != null ==>
        && scanner.isLocked == (if old(scanner.isClosed) then !old(scanner.isLocked) else old(scanner.isLocked))
        && scanner.isClosed == old(scanner.isClosed)
        && scanner.occupant == old(scanner.occupant)
    {
      if scanner != null && scanner.isClosed {
        scanner.isLocked := !scanner.isLocked;
      }
    }

    /** Two toggles restore the lock. */
    method ToggleLockTwice()
      modifies scanner
      ensures scanner != null ==>
        scanner.isLocked == old(scanner.isLocked) && scanner.isClosed == old(scanner.isClosed)
    {
      ToggleLock();
      ToggleLock();
    }

    /**
      Scans the occupant: nothing happens without a scanner, an occupant, or when
      the occupant's mind belongs to another body; otherwise the first record with
      the occupant's mobID is updated in place, or a new record is appended.
     */
    method Scan()
      requires Valid()
      modifies this`records, records
      ensures Valid()
      ensures Contents() ==
        if scanner == null || scanner.occupant.None? then old(Contents())
        else Scanned(old(Contents()), scanner.occupant.value)
      ensures old(records) <= records
    {
      if scanner == null || scanner.occupant.None? {
        return;
      }
      var mob := scanner.occupant.value;
      if mob.player.mindBodyMobID != mob.mobID {
        return;
      }
      RecordsDistinct();
      ghost var views := Contents();
      var i := 0;
      while i < |records|
        invariant 0 <= i <= |records|
        invariant forall j :: 0 <= j < i ==> records[j].mobID != mob.mobID
      {
        var record := records[i];
        if mob.mobID == record.mobID {
          assert FirstMatch(views, mob.mobID) == Some(i);
          record.UpdateRecord(mob);
          assert forall j :: 0 <= j < |records| && j != i ==> records[j].View() == views[j];
          assert Contents() == views[i := RecordOf(mob)];
          ScanKeepsMobIDsDistinct(views, mob);
          return;
        }
        i := i + 1;
      }
      CreateRecord(mob);
      ScanKeepsMobIDsDistinct(views, mob);
    }

    /** Appends a new record made from the mob. */
    method CreateRecord(mob: Mob)
      modifies this`records
      ensures Contents() == old(Contents()) + [RecordOf(mob)]
      ensures records == old(records) + [records[|records| - 1]] && fresh(records[|records| - 1])
    {
      var record := new CloningRecord();
      record.UpdateRecord(mob);
      records := records + [record];
    }

    /**
      Starts cloning from record when the pod is present, the pod can clone and
      the record's mind confirms; the record is then removed from the list
      (which is left unchanged if it did not hold the record).
     */
    method TryClone(record: CloningRecord, podPresent: bool, podCanClone: bool, mindConfirms: bool)
      returns (cloning: bool)
      requires Valid()
      modifies this`records
      ensures Valid()
      ensures cloning <==> podPresent && podCanClone && mindConfirms
      ensures !cloning ==> records == old(records)
      ensures cloning ==> records == RemoveFirst(old(records), record) && record !in records
    {
      cloning := false;
      if podPresent && podCanClone {
        if mindConfirms {
          cloning := true;
          RecordsDistinct();
          ghost var views := Contents();
          match IndexOf(records, record)
          case None =>
          case Some(k) =>
            records := records[..k] + records[k + 1..];
            assert forall j :: 0 <= j < |records| ==> records[j] == old(records)[if j < k then j else j + 1];
            assert forall j :: 0 <= j < |records| ==> Contents()[j] == views[if j < k then j else j + 1];
        }
      }
    }
  }
}

/** The fleet: how the numbers received are deduplicated, split into retained and
  excluded, stored, and read back. */
module Fleet {
  import opened Entities
  import opened Tables
  import opened Operations
  import opened Finite

  ghost predicate Distinct(s: seq<Msisdn>) {
    forall i, j | 0 <= i < j < |s| :: s[i] != s[j]
  }

  /** Where a number appears first. */
  ghost function FirstIndex(numbers: seq<Msisdn>, n: Msisdn): (k: nat)
    requires n in numbers
    ensures k < |numbers| && numbers[k] == n && n !in numbers[..k]
  {
    var front := numbers[..|numbers| - 1];
    assert numbers == front + [numbers[|numbers| - 1]];
    if n in front then
      var k := FirstIndex(front, n);
      assert numbers[..k] == front[..k];
      k
    else |numbers| - 1
  }

  lemma FirstIndexUnique(numbers: seq<Msisdn>, n: Msisdn, k: nat)
    requires k < |numbers| && numbers[k] == n && n !in numbers[..k]
    ensures FirstIndex(numbers, n) == k
  {}

  /** A deduplicated fleet holds the numbers received, once each, in the order of
    their first appearance. */
  lemma {:induction false} DeduplicateKeepsFirstAppearances(numbers: seq<Msisdn>)
    ensures var d := Deduplicate(numbers);
      && Distinct(d)
      && (forall n :: n in d <==> n in numbers)
      && (forall i, j | 0 <= i < j < |d| ::
          d[i] in numbers && d[j] in numbers && FirstIndex(numbers, d[i]) < FirstIndex(numbers, d[j]))
      && |d| <= |numbers| && (numbers == [] <==> d == [])
  {
    if numbers != [] {
      var front, last := numbers[..|numbers| - 1], numbers[|numbers| - 1];
      var d, rest := Deduplicate(numbers), Deduplicate(front);
      DeduplicateKeepsFirstAppearances(front);
      assert numbers == front + [last];
      forall n | n in front ensures FirstIndex(numbers, n) == FirstIndex(front, n) < |front| {
        var k := FirstIndex(front, n);
        assert numbers[..k] == front[..k];
        FirstIndexUnique(numbers, n, k);
      }
      forall i, j | 0 <= i < j < |d| ensures d[i] != d[j] && FirstIndex(numbers, d[i]) < FirstIndex(numbers, d[j]) {
        assert d[i] == rest[i];
        if j == |rest| {
          FirstIndexUnique(numbers, last, |front|);
        } else {
          assert d[j] == rest[j];
        }
      }
    }
  }

  /** The retained numbers are the eligible ones, in the order given; the excluded
    ones are the others, each with the code of its refusal. */
  lemma {:induction false} FleetPartition(s: Platform, numbers: seq<Msisdn>, source: OperatorId, recipient: OperatorId)
    requires AllKnown(s, numbers) && Distinct(numbers)
    ensures var kept, out := Retained(s, numbers, source, recipient), Excluded(s, numbers, source, recipient);
      && Distinct(kept)
      && (forall n :: n in kept <==> n in numbers && n in s.registry && FleetCheck(s, n, source, recipient).None?)
      && (forall x :: x in out <==> x.msisdn in numbers && x.msisdn in s.registry
                                    && FleetCheck(s, x.msisdn, source, recipient) == Some(x.code))
      && (forall i, j | 0 <= i < j < |out| :: out[i].msisdn != out[j].msisdn)
      && |kept| + |out| == |numbers|
  {
    if numbers != [] {
      var front, last := numbers[..|numbers| - 1], numbers[|numbers| - 1];
      FleetPartition(s, front, source, recipient);
      assert numbers == front + [last];
      assert last !in front;
      var out := Excluded(s, front, source, recipient);
      assert forall i | 0 <= i < |out| :: out[i] in out && out[i].msisdn in front;
    }
  }

  lemma SameFirstIndex(numbers: seq<Msisdn>)
    requires Distinct(numbers) && numbers != []
    ensures var front := numbers[..|numbers| - 1];
      && (forall n | n in front :: n in numbers && FirstIndex(numbers, n) == FirstIndex(front, n) < |front|)
      && FirstIndex(numbers, numbers[|numbers| - 1]) == |numbers| - 1
  {
    var front, last := numbers[..|numbers| - 1], numbers[|numbers| - 1];
    forall n | n in front ensures n in numbers && FirstIndex(numbers, n) == FirstIndex(front, n) {
      var k := FirstIndex(front, n);
      assert numbers[..k] == front[..k] && numbers[k] == n;
      FirstIndexUnique(numbers, n, k);
    }
    assert last !in numbers[..|front|];
    FirstIndexUnique(numbers, last, |front|);
  }

  /** Keeping a subset keeps the order. */
  lemma {:induction false} RetainedInOrder(s: Platform, numbers: seq<Msisdn>, source: OperatorId, recipient: OperatorId)
    requires AllKnown(s, numbers) && Distinct(numbers)
    ensures var kept := Retained(s, numbers, source, recipient);
      forall i, j | 0 <= i < j < |kept| ::
        kept[i] in numbers && kept[j] in numbers && FirstIndex(numbers, kept[i]) < FirstIndex(numbers, kept[j])
  {
    if numbers != [] {
      var front, last := numbers[..|numbers| - 1], numbers[|numbers| - 1];
      var kept, rest := Retained(s, numbers, source, recipient), Retained(s, front, source, recipient);
      RetainedInOrder(s, front, source, recipient);
      FleetPartition(s, front, source, recipient);
      assert numbers == front + [last];
      SameFirstIndex(numbers);
      hide FirstIndex, FleetCheck;
      forall i, j | 0 <= i < j < |kept|
        ensures kept[i] in numbers && kept[j] in numbers && FirstIndex(numbers, kept[i]) < FirstIndex(numbers, kept[j])
      {
        assert kept[i] == rest[i] && rest[i] in rest && rest[i] in front;
        if j < |rest| {
          assert kept[j] == rest[j] && rest[j] in rest;
        }
      }
    }
  }

  // ---- Storing and reading back ------------------------------------------------

  lemma {:induction false} RetainedRowsContents(retained: seq<Msisdn>, prefix: Option<Prefix>)
    requires Distinct(retained)
    ensures var rows := RetainedRows(retained, prefix);
      && (forall n :: n in rows <==> n in retained)
      && (forall i | 0 <= i < |retained| ::
          retained[i] in rows && rows[retained[i]] == NumberRow(RowInProgress, None, i, prefix))
  {
    if retained != [] {
      var front := retained[..|retained| - 1];
      RetainedRowsContents(front, prefix);
      assert retained == front + [retained[|retained| - 1]];
      assert forall i | 0 <= i < |front| :: front[i] == retained[i];
    }
  }

  ghost predicate ExcludedIn(excluded: seq<ExcludedNumber>, n: Msisdn) {
    exists x | x in excluded :: x.msisdn == n
  }

  lemma ExcludedSplit(excluded: seq<ExcludedNumber>, n: Msisdn)
    requires excluded != []
    ensures var front, last := excluded[..|excluded| - 1], excluded[|excluded| - 1];
      && last in excluded
      && (forall x :: x in excluded <==> x in front || x == last)
      && (ExcludedIn(excluded, n) <==> ExcludedIn(front, n) || last.msisdn == n)
  {
    var front, last := excluded[..|excluded| - 1], excluded[|excluded| - 1];
    assert excluded == front + [last];
  }

  lemma {:induction false} FleetRowsKeys(retained: seq<Msisdn>, excluded: seq<ExcludedNumber>,
      prefix: Option<Prefix>, n: Msisdn)
    requires Distinct(retained)
    ensures n in FleetRows(retained, excluded, prefix) <==> n in retained || ExcludedIn(excluded, n)
  {
    RetainedRowsContents(retained, prefix);
    if excluded != [] {
      FleetRowsKeys(retained, excluded[..|excluded| - 1], prefix, n);
      ExcludedSplit(excluded, n);
    }
  }

  lemma {:induction false} FleetRowsRetained(retained: seq<Msisdn>, excluded: seq<ExcludedNumber>,
      prefix: Option<Prefix>, i: nat)
    requires Distinct(retained) && i < |retained| && !ExcludedIn(excluded, retained[i])
    ensures var rows := FleetRows(retained, excluded, prefix);
      retained[i] in rows && rows[retained[i]] == NumberRow(RowInProgress, None, i, prefix)
  {
    RetainedRowsContents(retained, prefix);
    if excluded != [] {
      ExcludedSplit(excluded, retained[i]);
      FleetRowsRetained(retained, excluded[..|excluded| - 1], prefix, i);
    }
  }

  lemma {:induction false} FleetRowsExcluded(retained: seq<Msisdn>, excluded: seq<ExcludedNumber>,
      prefix: Option<Prefix>, k: nat)
    requires k < |excluded| && forall i, j | 0 <= i < j < |excluded| :: excluded[i].msisdn != excluded[j].msisdn
    ensures var rows, x := FleetRows(retained, excluded, prefix), excluded[k];
      x.msisdn in rows && rows[x.msisdn] == NumberRow(RowRejected, Some(x.code), 0, None)
  {
    if k < |excluded| - 1 {
      FleetRowsExcluded(retained, excluded[..|excluded| - 1], prefix, k);
    }
  }

  predicate Before(d: Dossier, a: Msisdn, b: Msisdn)
    requires a in d.numbers && b in d.numbers
  {
    d.numbers[a].position < d.numbers[b].position
    || (d.numbers[a].position == d.numbers[b].position && a < b)
  }

  /** What fleetNumbers answers: the numbers not excluded at creation, ordered by
    position, then by number. */
  ghost predicate IsListing(d: Dossier, numbers: seq<Msisdn>) {
    && (forall n :: n in numbers <==> n in d.numbers && d.numbers[n].exclusion.None?)
    && (forall i, j | 0 <= i < j < |numbers| :: Before(d, numbers[i], numbers[j]))
  }

  /** Rows stored at positions 0, 1, 2, ... are read back as they were given. */
  lemma ListingIsUnique(d: Dossier, stored: seq<Msisdn>, read: seq<Msisdn>)
    requires Distinct(stored)
    requires forall n :: n in stored <==> n in d.numbers && d.numbers[n].exclusion.None?
    requires forall i | 0 <= i < |stored| :: stored[i] in d.numbers && d.numbers[stored[i]].position == i
    ensures IsListing(d, read) <==> read == stored
  {
    assert forall i | 0 <= i < |stored| :: stored[i] in stored;
    assert IsListing(d, stored);
    if IsListing(d, read) {
      assert forall i | 0 <= i < |read| :: read[i] in read;
      assert Distinct(read);
      DistinctSize(read);
      DistinctSize(stored);
      assert (set n | n in read) == set n | n in stored;
      forall i | 0 <= i < |read| ensures read[i] == stored[i] {
        PositionAtLeast(d, stored, read, i);
        PositionAtMost(d, stored, read, i);
        var k :| 0 <= k < |stored| && stored[k] == read[i];
      }
    }
  }

  lemma {:induction false} PositionAtLeast(d: Dossier, stored: seq<Msisdn>, read: seq<Msisdn>, i: nat)
    requires IsListing(d, read) && i < |read|
    requires forall n | n in read :: exists k | 0 <= k < |stored| :: stored[k] == n
    requires forall k | 0 <= k < |stored| :: stored[k] in d.numbers && d.numbers[stored[k]].position == k
    ensures read[i] in d.numbers && d.numbers[read[i]].position >= i
  {
    assert read[i] in read;
    var k :| 0 <= k < |stored| && stored[k] == read[i];
    if i > 0 {
      PositionAtLeast(d, stored, read, i - 1);
      var k' :| 0 <= k' < |stored| && stored[k'] == read[i - 1];
      assert Before(d, read[i - 1], read[i]);
    }
  }

  lemma {:induction false} PositionAtMost(d: Dossier, stored: seq<Msisdn>, read: seq<Msisdn>, i: nat)
    requires IsListing(d, read) && i < |read| == |stored|
    requires forall n | n in read :: exists k | 0 <= k < |stored| :: stored[k] == n
    requires forall k | 0 <= k < |stored| :: stored[k] in d.numbers && d.numbers[stored[k]].position == k
    ensures read[i] in d.numbers && d.numbers[read[i]].position <= i
    decreases |read| - i
  {
    assert read[i] in read;
    var k :| 0 <= k < |stored| && stored[k] == read[i];
    if i + 1 < |read| {
      PositionAtMost(d, stored, read, i + 1);
      assert read[i + 1] in read;
      var k' :| 0 <= k' < |stored| && stored[k'] == read[i + 1];
      assert Before(d, read[i], read[i + 1]);
    }
  }

  // ---- The creation as a whole ---------------------------------------------------

  ghost function CreatedFleet(s: Platform, carrier: Msisdn, source: OperatorId, recipient: OperatorId,
      numbers: seq<Msisdn>): Dossier
    requires AllKnown(s, Deduplicate(numbers))
  {
    var distinct, prefix := Deduplicate(numbers), RoutingPrefix(s.market, source);
    NewDossier(NewRequest(carrier, Enterprise, Porting, Acceptance, source, recipient, prefix, s.clock),
               FleetRows(Retained(s, distinct, source, recipient), Excluded(s, distinct, source, recipient), prefix))
  }

  /** Retained rows are active and keep their rank, excluded rows are rejected and
    keep their code, and nothing else is stored. */
  lemma FleetStored(s: Platform, carrier: Msisdn, source: OperatorId, recipient: OperatorId, numbers: seq<Msisdn>)
    requires AllKnown(s, Deduplicate(numbers))
    ensures
      var d := CreatedFleet(s, carrier, source, recipient, numbers);
      var distinct := Deduplicate(numbers);
      var kept, out := Retained(s, distinct, source, recipient), Excluded(s, distinct, source, recipient);
      var prefix := RoutingPrefix(s.market, source);
      && (forall i | 0 <= i < |kept| ::
          kept[i] in d.numbers && d.numbers[kept[i]] == NumberRow(RowInProgress, None, i, prefix))
      && (forall x | x in out ::
          x.msisdn in d.numbers && d.numbers[x.msisdn] == NumberRow(RowRejected, Some(x.code), 0, None))
      && (forall n :: n in d.numbers <==> n in kept || ExcludedIn(out, n))
      && (forall n :: Active(d, n) <==> n in kept)
  {
    var d := CreatedFleet(s, carrier, source, recipient, numbers);
    var distinct := Deduplicate(numbers);
    var kept, out := Retained(s, distinct, source, recipient), Excluded(s, distinct, source, recipient);
    DeduplicateKeepsFirstAppearances(numbers);
    FleetPartition(s, distinct, source, recipient);
    var prefix := RoutingPrefix(s.market, source);
    forall i | 0 <= i < |kept|
        ensures kept[i] in d.numbers && d.numbers[kept[i]] == NumberRow(RowInProgress, None, i, prefix) {
      assert kept[i] in kept;
      FleetRowsRetained(kept, out, prefix, i);
    }
    forall x | x in out
        ensures x.msisdn in d.numbers && d.numbers[x.msisdn] == NumberRow(RowRejected, Some(x.code), 0, None) {
      var k :| 0 <= k < |out| && out[k] == x;
      FleetRowsExcluded(kept, out, prefix, k);
    }
    forall n ensures n in d.numbers <==> n in kept || ExcludedIn(out, n) {
      FleetRowsKeys(kept, out, prefix, n);
    }
    forall n ensures Active(d, n) <==> n in kept {
      if n in kept {
        var i :| 0 <= i < |kept| && kept[i] == n;
      } else if x :| x in out && x.msisdn == n {
      }
    }
  }

  /** The numbers read back from a created fleet are the retained ones, in order. */
  lemma FleetReadBack(s: Platform, carrier: Msisdn, source: OperatorId, recipient: OperatorId, numbers: seq<Msisdn>,
      read: seq<Msisdn>)
    requires AllKnown(s, Deduplicate(numbers))
    ensures IsListing(CreatedFleet(s, carrier, source, recipient, numbers), read)
            <==> read == Retained(s, Deduplicate(numbers), source, recipient)
  {
    var d := CreatedFleet(s, carrier, source, recipient, numbers);
    var distinct := Deduplicate(numbers);
    var kept, out := Retained(s, distinct, source, recipient), Excluded(s, distinct, source, recipient);
    DeduplicateKeepsFirstAppearances(numbers);
    FleetPartition(s, distinct, source, recipient);
    FleetStored(s, carrier, source, recipient, numbers);
    forall n ensures n in kept <==> n in d.numbers && d.numbers[n].exclusion.None? {
      if n in kept {
        var i :| 0 <= i < |kept| && kept[i] == n;
      } else if x :| x in out && x.msisdn == n {
      }
    }
    ListingIsUnique(d, kept, read);
  }

  /** Since one number at least is retained and all have the same holder, only two
    codes can exclude a number. */
  lemma ExclusionCodes(s: Platform, numbers: seq<Msisdn>, source: OperatorId, recipient: OperatorId, x: ExcludedNumber)
    requires AllKnown(s, numbers) && Distinct(numbers) && SameHolder(s, numbers)
    requires Retained(s, numbers, source, recipient) != [] && x in Excluded(s, numbers, source, recipient)
    ensures x.code == RequestAlreadyInProgressForNumber || x.code == PortingDelayNotRespected
  {
    FleetPartition(s, numbers, source, recipient);
    var n := Retained(s, numbers, source, recipient)[0];
    assert n in Retained(s, numbers, source, recipient);
    var i :| 0 <= i < |numbers| && numbers[i] == x.msisdn;
    var j :| 0 <= j < |numbers| && numbers[j] == n;
    assert s.registry[numbers[i]].holder == s.registry[numbers[j]].holder;
  }

  /** The list is ordered by first appearance among the numbers. */
  ghost predicate ByFirstAppearance(numbers: seq<Msisdn>, list: seq<Msisdn>) {
    forall i, j | 0 <= i < j < |list| ::
      list[i] in numbers && list[j] in numbers && FirstIndex(numbers, list[i]) < FirstIndex(numbers, list[j])
  }

  lemma RetainedByFirstAppearance(s: Platform, numbers: seq<Msisdn>, source: OperatorId, recipient: OperatorId)
    requires AllKnown(s, Deduplicate(numbers))
    ensures ByFirstAppearance(numbers, Retained(s, Deduplicate(numbers), source, recipient))
  {
    var distinct := Deduplicate(numbers);
    var kept := Retained(s, distinct, source, recipient);
    DeduplicateKeepsFirstAppearances(numbers);
    RetainedInOrder(s, distinct, source, recipient);
    FleetPartition(s, distinct, source, recipient);
    hide FirstIndex, Deduplicate, Retained;
    forall i, j | 0 <= i < j < |kept|
      ensures kept[i] in numbers && kept[j] in numbers && FirstIndex(numbers, kept[i]) < FirstIndex(numbers, kept[j])
    {
      assert kept[i] in kept && kept[j] in kept;
      assert FirstIndex(distinct, kept[i]) < FirstIndex(distinct, kept[j]);
      OrderThrough(numbers, kept[i], kept[j]);
    }
  }

  lemma OrderThrough(numbers: seq<Msisdn>, a: Msisdn, b: Msisdn)
    requires a in Deduplicate(numbers) && b in Deduplicate(numbers)
    requires FirstIndex(Deduplicate(numbers), a) < FirstIndex(Deduplicate(numbers), b)
    ensures a in numbers && b in numbers && FirstIndex(numbers, a) < FirstIndex(numbers, b)
  {
    var distinct := Deduplicate(numbers);
    DeduplicateKeepsFirstAppearances(numbers);
    var i, j := FirstIndex(distinct, a), FirstIndex(distinct, b);
    assert distinct[i] == a && distinct[j] == b;
  }

  /** The two lists a creation makes of the numbers received: what they hold, and how
    many. */
  lemma FleetSplit(s: Platform, numbers: seq<Msisdn>, source: OperatorId, recipient: OperatorId)
    requires AllKnown(s, Deduplicate(numbers)) && SameHolder(s, Deduplicate(numbers))
    requires Retained(s, Deduplicate(numbers), source, recipient) != []
    ensures
      var distinct := Deduplicate(numbers);
      var kept, out := Retained(s, distinct, source, recipient), Excluded(s, distinct, source, recipient);
      && (forall n :: n in kept <==> n in numbers && n in s.registry && FleetCheck(s, n, source, recipient).None?)
      && (forall n :: n in numbers <==> n in kept || ExcludedIn(out, n))
      && (forall x | x in out ::
          x.msisdn !in kept && (x.code == RequestAlreadyInProgressForNumber || x.code == PortingDelayNotRespected))
      && |numbers| - |out| == |kept| + (|numbers| - |distinct|)
  {
    var distinct := Deduplicate(numbers);
    var kept, out := Retained(s, distinct, source, recipient), Excluded(s, distinct, source, recipient);
    DeduplicateKeepsFirstAppearances(numbers);
    FleetPartition(s, distinct, source, recipient);
    hide FirstIndex, FleetCheck, Deduplicate, Retained, Excluded;
    forall x | x in out ensures x.code == RequestAlreadyInProgressForNumber || x.code == PortingDelayNotRespected {
      ExclusionCodes(s, distinct, source, recipient, x);
    }
    forall n | n in numbers ensures n in kept || ExcludedIn(out, n) {
      if n !in kept {
        var i :| 0 <= i < |distinct| && distinct[i] == n;
        assert ExcludedNumber(n, FleetCheck(s, n, source, recipient).value) in out;
      }
    }
  }

  /** Everything a successful fleet creation promises its caller: the numbers read
    back are the eligible ones of the list received, in the order of their first
    appearance; with the excluded ones they partition that list; the count
    answered exceeds them by the duplicates received. */
  lemma FleetRoundTrip(
    s: Platform, caller: OperatorId, carrier: Msisdn, source: OperatorId, recipient: OperatorId, numbers: seq<Msisdn>,
    otp: bool, read: seq<Msisdn>)
    requires CreateFleetFault(s, caller, source, recipient, numbers, otp).None?
    requires s.nextId in CreateFleet(s, caller, carrier, source, recipient, numbers, otp).requests
    requires IsListing(CreateFleet(s, caller, carrier, source, recipient, numbers, otp).requests[s.nextId], read)
    ensures
      var distinct := Deduplicate(numbers);
      var out := Excluded(s, distinct, source, recipient);
      && read != []
      && (forall n :: n in read <==> n in numbers && n in s.registry && FleetCheck(s, n, source, recipient).None?)
      && ByFirstAppearance(numbers, read)
      && (forall n :: n in numbers <==> n in read || ExcludedIn(out, n))
      && (forall x | x in out ::
          x.msisdn !in read && (x.code == RequestAlreadyInProgressForNumber || x.code == PortingDelayNotRespected))
      && |numbers| - |out| == |read| + (|numbers| - |distinct|)
  {
    hide FirstIndex, FleetCheck, Deduplicate, Retained, Excluded, FleetRows, IsListing, RoutingPrefix,
      ByFirstAppearance;
    FleetReadBack(s, carrier, source, recipient, numbers, read);
    assert read == Retained(s, Deduplicate(numbers), source, recipient);
    RetainedByFirstAppearance(s, numbers, source, recipient);
    FleetSplit(s, numbers, source, recipient);
  }
}

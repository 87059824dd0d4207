/** The scan that finds the wanted input devices among those the system lists. */
module InputScan {
  const MAX_CHARS := 32

  function Shortened(name: string): string {
    if |name| <= MAX_CHARS then name else name[..MAX_CHARS]
  }

  /** strncmp over at most MAX_CHARS characters finds no difference. */
  predicate Same(a: string, b: string) { Shortened(a) == Shortened(b) }

  /** That is, the names are equal, or both have 32 characters or more and agree on the first 32. */
  lemma SameMeans(a: string, b: string)
    ensures Same(a, b) <==> a == b || (|a| >= 32 && |b| >= 32 && a[..32] == b[..32])
  {
    if |a| == 32 { assert a[..32] == a; }
    if |b| == 32 { assert b[..32] == b; }
  }

  /** The smallest index below `n` of a device with the wanted name, or -1. */
  function FirstMatch(devices: seq<string>, wanted: string, n: nat): int
    requires n <= |devices|
  {
    if n == 0 then -1
    else
      var earlier := FirstMatch(devices, wanted, n - 1);
      if earlier != -1 then earlier else if Same(devices[n - 1], wanted) then n - 1 else -1
  }

  lemma {:induction false} FirstMatchIsFirst(devices: seq<string>, wanted: string, n: nat)
    requires n <= |devices|
    ensures var i := FirstMatch(devices, wanted, n);
            if i == -1 then forall k :: 0 <= k < n ==> !Same(devices[k], wanted)
            else 0 <= i < n && Same(devices[i], wanted) && forall k :: 0 <= k < i ==> !Same(devices[k], wanted)
  {
    if n > 0 { FirstMatchIsFirst(devices, wanted, n - 1); }
  }

  lemma {:induction false} FirstMatchIsStable(devices: seq<string>, wanted: string, n: nat, m: nat)
    requires n <= m <= |devices| && FirstMatch(devices, wanted, n) != -1
    ensures FirstMatch(devices, wanted, m) == FirstMatch(devices, wanted, n)
  {
    if n < m { FirstMatchIsStable(devices, wanted, n, m - 1); }
  }

  /** What the scan makes of an ID: one that is already known stays. */
  function Scanned(devices: seq<string>, wanted: string, id: int): int {
    if id != -1 then id else FirstMatch(devices, wanted, |devices|)
  }

  /** How many of the first `n` IDs were unset and are now found. */
  ghost function Found(before: seq<int>, after: seq<int>, n: nat): nat
    requires n <= |before| && n <= |after|
  {
    if n == 0 then 0
    else Found(before, after, n - 1) + if before[n - 1] == -1 && after[n - 1] != -1 then 1 else 0
  }

  lemma {:induction false} FoundAll(before: seq<int>, after: seq<int>, n: nat)
    requires n <= |before| && n <= |after|
    ensures Found(before, after, n) <= n
    ensures Found(before, after, n) == n ==> forall j :: 0 <= j < n ==> before[j] == -1 && after[j] != -1
  {
    if n > 0 { FoundAll(before, after, n - 1); }
  }

  lemma {:induction false} FoundFrame(before: seq<int>, a: seq<int>, b: seq<int>, n: nat)
    requires n <= |before| && n <= |a| && n <= |b| && a[..n] == b[..n]
    ensures Found(before, a, n) == Found(before, b, n)
  {
    if n > 0 {
      assert a[..n][..n - 1] == a[..n - 1] && b[..n][..n - 1] == b[..n - 1];
      assert a[n - 1] == a[..n][n - 1] == b[n - 1];
      FoundFrame(before, a, b, n - 1);
    }
  }

  /** find_input_device_ids.  The scan stops early once it has found as many devices as are
      wanted; every ID that was unset is the smallest matching index or stays -1. */
  method FindInputDeviceIds(devices: seq<string>, wanted: seq<string>, ids: array<int>)
    requires ids.Length == |wanted|
    modifies ids
    ensures forall j :: 0 <= j < |wanted| ==> ids[j] == Scanned(devices, wanted[j], old(ids[j]))
    ensures forall j :: 0 <= j < |wanted| && old(ids[j]) != -1 ==> ids[j] == old(ids[j])
    ensures forall j :: 0 <= j < |wanted| && old(ids[j]) == -1 ==> -1 <= ids[j] < |devices|
    // A name matches if it is equal, or if both are long and agree on 32 characters.
    ensures forall j :: 0 <= j < |wanted| && old(ids[j]) == -1 && ids[j] != -1 ==>
              var d, w := devices[ids[j]], wanted[j];
              d == w || (|d| >= 32 && |w| >= 32 && d[..32] == w[..32])
    ensures forall j, k ::
              0 <= j < |wanted| && 0 <= k < |devices| && old(ids[j]) == -1 && (ids[j] == -1 || k < ids[j]) ==>
              var d, w := devices[k], wanted[j];
              d != w && (|d| >= 32 && |w| >= 32 ==> d[..32] != w[..32])
  {
    ghost var before := ids[..];
    var i, count := 0, 0;
    assert Partial(devices, wanted, before, ids[..], 0);
    NothingFound(before, |wanted|);
    while i < |devices|
      invariant i <= |devices| && |before| == |wanted|
      invariant Partial(devices, wanted, before, ids[..], i)
      invariant count == Found(before, ids[..], |wanted|)
    {
      count := ScanOne(devices, wanted, ids, i, count, before);
      i := i + 1;
      if count == |wanted| {
        FoundAll(before, ids[..], |wanted|);
        break;
      }
    }
    forall j | 0 <= j < |wanted| ensures ids[j] == Scanned(devices, wanted[j], before[j]) {
      if i < |devices| {
        assert ids[..][j] != -1;
        FirstMatchIsStable(devices, wanted[j], i, |devices|);
      }
    }
    forall j | 0 <= j < |wanted| && before[j] == -1
      ensures -1 <= ids[j] < |devices|
      ensures if ids[j] == -1 then forall k :: 0 <= k < |devices| ==> !Same(devices[k], wanted[j])
              else Same(devices[ids[j]], wanted[j]) && forall k :: 0 <= k < ids[j] ==> !Same(devices[k], wanted[j])
    {
      FirstMatchIsFirst(devices, wanted[j], |devices|);
    }
    forall j, k | 0 <= j < |wanted| && 0 <= k < |devices|
      ensures Same(devices[k], wanted[j]) <==>
              devices[k] == wanted[j] ||
              (|devices[k]| >= 32 && |wanted[j]| >= 32 && devices[k][..32] == wanted[j][..32])
    {
      SameMeans(devices[k], wanted[j]);
    }
  }

  /** The IDs after the first `n` devices. */
  ghost predicate Partial(devices: seq<string>, wanted: seq<string>, before: seq<int>, now: seq<int>, n: nat)
    requires n <= |devices|
  {
    && |before| == |wanted| == |now|
    && forall j :: 0 <= j < |wanted| ==>
         now[j] == if before[j] != -1 then before[j] else FirstMatch(devices, wanted[j], n)
  }

  lemma {:induction false} NothingFound(ids: seq<int>, n: nat)
    requires n <= |ids|
    ensures Found(ids, ids, n) == 0
  {
    if n > 0 { NothingFound(ids, n - 1); }
  }

  /** The inner loop, for one device. */
  method ScanOne(devices: seq<string>, wanted: seq<string>, ids: array<int>, i: nat, count: nat, ghost before: seq<int>)
    returns (found: nat)
    requires i < |devices| && ids.Length == |wanted| && Partial(devices, wanted, before, ids[..], i)
    requires count == Found(before, ids[..], |wanted|)
    modifies ids
    ensures Partial(devices, wanted, before, ids[..], i + 1)
    ensures found == Found(before, ids[..], |wanted|)
  {
    found := count;
    ghost var was := ids[..];
    ghost var gained := 0;
    for j := 0 to |wanted|
      invariant forall k :: j <= k < |wanted| ==> ids[k] == was[k]
      invariant forall k :: 0 <= k < j ==>
                  ids[k] == if before[k] != -1 then before[k] else FirstMatch(devices, wanted[k], i + 1)
      invariant found == count + gained
      invariant Found(before, ids[..], j) == Found(before, was, j) + gained
    {
      ghost var now := ids[..];
      if ids[j] == -1 && Same(devices[i], wanted[j]) {
        found := found + 1;
        ids[j] := i;
        gained := gained + 1;
      }
      assert ids[..][..j] == now[..j];
      FoundFrame(before, ids[..], now, j);
    }
    assert ids[..][..|wanted|] == ids[..];
  }

  /** From unset, the result is the smallest matching index, or -1 if there is none; a second
      scan over the same devices changes nothing. */
  lemma SecondScanChangesNothing(devices: seq<string>, wanted: string, id: int)
    ensures Scanned(devices, wanted, Scanned(devices, wanted, id)) == Scanned(devices, wanted, id)
    ensures id == -1 ==> var r := Scanned(devices, wanted, id);
              if r == -1 then forall k :: 0 <= k < |devices| ==> !Same(devices[k], wanted)
              else && 0 <= r < |devices| && Same(devices[r], wanted)
                   && forall k :: 0 <= k < r ==> !Same(devices[k], wanted)
  {
    FirstMatchIsFirst(devices, wanted, |devices|);
  }
}

/**
 * Allow and deny rules for peer addresses: the compiled list that every accept
 * consults, and the rows it is compiled from. An IPv4 peer on a dual-stack
 * listener arrives as an IPv4-mapped IPv6 address (section 2.5.5.2 of RFC 4291),
 * so networks and addresses are compared in canonical form.
 */
module IpRules {
  import opened Options

  // ---- bits ---------------------------------------------------------------------------

  /** All but the lowest h bits. */
  function High(b: nat, h: nat): nat {
    if h == 0 then b else High(b / 2, h - 1)
  }

  /** The lowest h bits. */
  function Low(b: nat, h: nat): nat {
    if h == 0 then 0 else 2 * Low(b / 2, h - 1) + b % 2
  }

  /** `b` with its lowest h bits cleared. */
  function Clear(b: nat, h: nat): nat {
    if h == 0 then b else 2 * Clear(b / 2, h - 1)
  }

  /** q above the k lowest bits of x. */
  function Join(q: nat, x: nat, k: nat): nat {
    if k == 0 then q else 2 * Join(q, x / 2, k - 1) + x % 2
  }

  lemma Halves(j: nat, b: nat)
    requires b < 2
    ensures (2 * j + b) / 2 == j && (2 * j + b) % 2 == b
  {
  }

  lemma {:induction false} HighClear(b: nat, h: nat)
    ensures High(Clear(b, h), h) == High(b, h)
  {
    if h > 0 {
      HighClear(b / 2, h - 1);
    }
  }

  lemma {:induction false} HighHigh(b: nat, h: nat, k: nat)
    ensures High(High(b, h), k) == High(b, h + k)
  {
    if h > 0 {
      HighHigh(b / 2, h - 1, k);
    }
  }

  lemma {:induction false} JoinParts(b: nat, k: nat)
    ensures Join(High(b, k), Low(b, k), k) == b && High(Low(b, k), k) == 0
  {
    if k > 0 {
      JoinParts(b / 2, k - 1);
    }
  }

  lemma {:induction false} HighJoin(q: nat, x: nat, k: nat, h: nat)
    requires h <= k
    ensures High(Join(q, x, k), h) == Join(q, High(x, h), k - h)
  {
    if h > 0 {
      Halves(Join(q, x / 2, k - 1), x % 2);
      HighJoin(q, x / 2, k - 1, h - 1);
    }
  }

  lemma {:induction false} JoinInjective(q: nat, x: nat, y: nat, k: nat)
    requires Join(q, x, k) == Join(q, y, k) && High(x, k) == High(y, k)
    ensures x == y
  {
    if k > 0 {
      Halves(Join(q, x / 2, k - 1), x % 2);
      Halves(Join(q, y / 2, k - 1), y % 2);
      JoinInjective(q, x / 2, y / 2, k - 1);
    }
  }

  lemma {:induction false} LowJoin(q: nat, x: nat, k: nat)
    requires High(x, k) == 0
    ensures Low(Join(q, x, k), k) == x && High(Join(q, x, k), k) == q
  {
    if k > 0 {
      Halves(Join(q, x / 2, k - 1), x % 2);
      LowJoin(q, x / 2, k - 1);
    }
  }

  // ---- addresses and networks -----------------------------------------------------------------

  datatype Address = V4(bits: nat) | V6(bits: nat)

  datatype Net = Net4(bits: nat, prefix: nat) | Net6(bits: nat, prefix: nat)

  const MAPPED: nat := 0xFFFF

  predicate ValidAddress(a: Address) {
    High(a.bits, if a.V4? then 32 else 128) == 0
  }

  predicate ValidNet(n: Net) {
    if n.Net4? then n.prefix <= 32 && High(n.bits, 32) == 0
    else n.prefix <= 128 && High(n.bits, 128) == 0
  }

  function ToMapped(x: nat): Address {
    V6(Join(MAPPED, x, 32))
  }

  /** The IPv4 form of a mapped address; anything else unchanged. */
  function ToCanonical(a: Address): Address {
    if a.V6? && High(a.bits, 32) == MAPPED then V4(Low(a.bits, 32)) else a
  }

  function HostBits(n: Net): nat
    requires n.prefix <= if n.Net4? then 32 else 128
  {
    (if n.Net4? then 32 else 128) - n.prefix
  }

  /** Networks contain addresses of their own family only. */
  predicate Contains(n: Net, a: Address)
    requires n.prefix <= if n.Net4? then 32 else 128
  {
    n.Net4? == a.V4? && High(n.bits, HostBits(n)) == High(a.bits, HostBits(n))
  }

  function Trunc(n: Net): (r: Net)
    requires n.prefix <= if n.Net4? then 32 else 128
    ensures r.prefix == n.prefix && r.Net4? == n.Net4?
  {
    n.(bits := Clear(n.bits, HostBits(n)))
  }

  function CanonicalNet(n: Net): (r: Net)
    requires ValidNet(n)
    ensures r.prefix <= if r.Net4? then 32 else 128
  {
    if n.Net6? && n.prefix >= 96 && High(Trunc(n).bits, 32) == MAPPED
    then Trunc(Net4(Low(Trunc(n).bits, 32), n.prefix - 96))
    else Trunc(n)
  }

  /** What a rule is meant to cover, without any canonical form: an IPv4 peer is covered by
      IPv4 networks and by IPv6 networks of prefix 96 or longer that hold its mapped
      address; any other IPv6 peer by the IPv6 networks that hold it. */
  predicate Covers(n: Net, a: Address)
    requires ValidNet(n)
  {
    match ToCanonical(a)
    case V4(x) => if n.Net4? then Contains(n, V4(x)) else n.prefix >= 96 && Contains(n, ToMapped(x))
    case V6(y) => n.Net6? && Contains(n, V6(y))
  }

  lemma TruncContains(n: Net, a: Address)
    requires n.prefix <= if n.Net4? then 32 else 128
    ensures Contains(Trunc(n), a) == Contains(n, a)
  {
    HighClear(n.bits, HostBits(n));
  }

  /** Clearing at most 32 host bits leaves the rest alone. */
  lemma MappedPart(n: Net)
    requires ValidNet(n) && n.Net6? && n.prefix >= 96
    ensures High(Trunc(n).bits, 32) == High(n.bits, 32)
  {
    var h := HostBits(n);
    HighClear(n.bits, h);
    HighHigh(n.bits, h, 32 - h);
    HighHigh(Clear(n.bits, h), h, 32 - h);
  }

  lemma MappedNetContains(n: Net, x: nat)
    requires ValidNet(n) && n.Net6? && n.prefix >= 96 && High(n.bits, 32) == MAPPED && High(x, 32) == 0
    ensures Contains(CanonicalNet(n), V4(x)) == Contains(n, ToMapped(x))
  {
    var h := HostBits(n);
    var t := Trunc(n).bits;
    var y := Low(t, 32);
    MappedPart(n);
    JoinParts(t, 32);
    TruncContains(n, ToMapped(x));
    TruncContains(Net4(y, n.prefix - 96), V4(x));
    HighJoin(MAPPED, y, 32, h);
    HighJoin(MAPPED, x, 32, h);
    HighHigh(x, h, 32 - h);
    HighHigh(y, h, 32 - h);
    if High(t, h) == High(ToMapped(x).bits, h) {
      JoinInjective(MAPPED, High(x, h), High(y, h), 32 - h);
    }
  }

  lemma UnmappedNetMisses(n: Net, x: nat)
    requires ValidNet(n) && n.Net6? && n.prefix >= 96 && High(n.bits, 32) != MAPPED && High(x, 32) == 0
    ensures !Contains(n, ToMapped(x))
  {
    var h := HostBits(n);
    LowJoin(MAPPED, x, 32);
    HighHigh(n.bits, h, 32 - h);
    HighHigh(ToMapped(x).bits, h, 32 - h);
  }

  /** A mapped network of prefix 96 or longer never holds an unmapped address. */
  lemma MappedNetIsOnlyMapped(n: Net, y: nat)
    requires ValidNet(n) && n.Net6? && n.prefix >= 96 && High(n.bits, 32) == MAPPED && High(y, 32) != MAPPED
    ensures !Contains(n, V6(y))
  {
    var h := HostBits(n);
    HighHigh(n.bits, h, 32 - h);
    HighHigh(y, h, 32 - h);
  }

  /** The compiled comparison is what the rule means. */
  lemma CompiledMeansCovers(n: Net, a: Address)
    requires ValidNet(n) && ValidAddress(a)
    ensures Contains(CanonicalNet(n), ToCanonical(a)) == Covers(n, a)
  {
    TruncContains(n, ToCanonical(a));
    JoinParts(a.bits, 32);
    if n.Net6? && n.prefix >= 96 {
      MappedPart(n);
    }
    match ToCanonical(a)
    case V4(x) =>
      if n.Net6? && n.prefix >= 96 {
        if High(n.bits, 32) == MAPPED {
          MappedNetContains(n, x);
        } else {
          UnmappedNetMisses(n, x);
        }
      }
    case V6(y) =>
      if n.Net6? && n.prefix >= 96 && High(n.bits, 32) == MAPPED {
        MappedNetIsOnlyMapped(n, y);
      }
  }

  /** What the matching loop asks of one compiled rule. */
  predicate Matches(n: Net, a: Address)
    requires ValidNet(n)
  {
    Contains(CanonicalNet(n), ToCanonical(a))
  }

  /** An IPv4 address and its mapped form are judged alike by every rule. */
  lemma MappedAlike(n: Net, x: nat)
    requires ValidNet(n) && High(x, 32) == 0
    ensures Matches(n, V4(x)) == Matches(n, ToMapped(x))
    ensures n.Net6? && n.prefix >= 96 ==> Matches(n, V4(x)) == Contains(n, ToMapped(x))
  {
    LowJoin(MAPPED, x, 32);
    CompiledMeansCovers(n, V4(x));
  }

  /** A short IPv6 prefix matches no IPv4 peer, however it arrives, even if it holds the
      mapped address; it matches exactly the unmapped IPv6 addresses it holds. */
  lemma ShortPrefixesAreIPv6Only(n: Net, a: Address)
    requires ValidNet(n) && ValidAddress(a) && n.Net6? && n.prefix < 96
    ensures Matches(n, a) <==> a.V6? && High(a.bits, 32) != MAPPED && Contains(n, a)
  {
    hide Contains, CanonicalNet;
    CompiledMeansCovers(n, a);
  }

  // ---- rules ---------------------------------------------------------------------------------

  datatype Action = Allow | Deny

  /** A stored row; text that does not parse is None. */
  datatype Row = Row(id: nat, position: int, createdAt: int, net: Option<Net>, action: Option<Action>, note: nat)

  datatype Verdict = Allowed | Denied(note: nat)

  datatype Compiled = Compiled(net: Net, action: Action, note: nat)

  predicate Readable(r: Row) {
    r.net.Some? && ValidNet(r.net.value) && r.action.Some?
  }

  predicate AllReadable(rows: seq<Row>) {
    forall i :: 0 <= i < |rows| ==> Readable(rows[i])
  }

  function Compile(rows: seq<Row>): (r: seq<Compiled>)
    requires AllReadable(rows)
    ensures |r| == |rows|
  {
    seq(|rows|, i requires 0 <= i < |rows| => Compiled(CanonicalNet(rows[i].net.value), rows[i].action.value, rows[i].note))
  }

  /** First match over the stored rows, by what each rule means. */
  function FirstMatch(rows: seq<Row>, a: Address): Verdict
    requires AllReadable(rows)
  {
    if rows == [] then Allowed
    else if Covers(rows[0].net.value, a) then (if rows[0].action.value == Allow then Allowed else Denied(rows[0].note))
    else FirstMatch(rows[1..], a)
  }

  // ---- list order ----------------------------------------------------------------------------

  predicate Before(r: Row, s: Row) {
    r.position < s.position || (r.position == s.position && r.createdAt <= s.createdAt)
  }

  predicate Sorted(rows: seq<Row>) {
    forall i, j :: 0 <= i < j < |rows| ==> Before(rows[i], rows[j])
  }

  /** Insert after everything that does not come later. */
  function Insert(rows: seq<Row>, r: Row): (s: seq<Row>)
    ensures |s| == |rows| + 1 && multiset(s) == multiset(rows) + multiset{r}
  {
    if rows == [] then [r]
    else if Before(rows[0], r) then
      assert rows == [rows[0]] + rows[1..];
      [rows[0]] + Insert(rows[1..], r)
    else [r] + rows
  }

  /** The rows by position, then by creation time. */
  function List(rows: seq<Row>): (s: seq<Row>)
    ensures multiset(s) == multiset(rows)
  {
    if rows == [] then []
    else
      assert rows == rows[..|rows| - 1] + [rows[|rows| - 1]];
      Insert(List(rows[..|rows| - 1]), rows[|rows| - 1])
  }

  lemma {:induction false} InsertSorted(rows: seq<Row>, r: Row)
    requires Sorted(rows)
    ensures Sorted(Insert(rows, r))
    ensures Insert(rows, r)[0] == r || (rows != [] && Insert(rows, r)[0] == rows[0] && Before(rows[0], r))
    decreases |rows|
  {
    if rows != [] && Before(rows[0], r) {
      var rest := Insert(rows[1..], r);
      InsertSorted(rows[1..], r);
      assert Before(rows[0], rest[0]);
      SortedCons(rows[0], rest);
    } else if rows != [] {
      SortedCons(r, rows);
    }
  }

  lemma SortedCons(x: Row, rows: seq<Row>)
    requires Sorted(rows) && (rows != [] ==> Before(x, rows[0]))
    ensures Sorted([x] + rows)
  {
    var s := [x] + rows;
    forall i, j | 0 <= i < j < |s|
      ensures Before(s[i], s[j])
    {
      assert s[j] == rows[j - 1];
      if i == 0 && j > 1 {
        assert Before(rows[0], rows[j - 1]);
      } else if i > 0 {
        assert s[i] == rows[i - 1];
      }
    }
  }

  lemma {:induction false} ListSorted(rows: seq<Row>)
    ensures Sorted(List(rows))
    ensures var l := List(rows);
            forall i, j :: 0 <= i < j < |l| ==>
              l[i].position < l[j].position || (l[i].position == l[j].position && l[i].createdAt <= l[j].createdAt)
    decreases |rows|
  {
    if rows != [] {
      ListSorted(rows[..|rows| - 1]);
      InsertSorted(List(rows[..|rows| - 1]), rows[|rows| - 1]);
    }
  }

  lemma ReadableInAnyOrder(rows: seq<Row>, others: seq<Row>)
    requires multiset(rows) == multiset(others) && AllReadable(rows)
    ensures AllReadable(others)
  {
    forall i | 0 <= i < |others| ensures Readable(others[i]) {
      assert others[i] in multiset(others);
      assert others[i] in rows;
    }
  }

  // ---- the manager --------------------------------------------------------------------------

  class Manager {
    var rows: seq<Row>
    var cache: seq<Compiled>
    ghost var loaded: seq<Row>   // the rows the cache was compiled from

    ghost predicate Valid()
      reads this
    {
      AllReadable(loaded) && cache == Compile(loaded)
    }

    constructor ()
      ensures Valid() && rows == [] && loaded == []
    {
      rows, cache, loaded := [], [], [];
      new;
      assert Compile([]) == [];
    }

    /** Compile everything, or leave the cache as it was. `listable` is false when storage
        cannot list the rows. */
    method Reload(listable: bool) returns (ok: bool)
      requires Valid()
      modifies this`cache, this`loaded
      ensures Valid() && ok == (listable && AllReadable(rows))
      ensures loaded == if ok then List(rows) else old(loaded)
    {
      if !listable {
        return false;
      }
      var listed := List(rows);
      var compiled: seq<Compiled> := [];
      for i := 0 to |listed|
        invariant AllReadable(listed[..i]) && compiled == Compile(listed[..i])
      {
        if listed[i].net == None || !ValidNet(listed[i].net.value) || listed[i].action == None {
          assert !Readable(listed[i]);
          if AllReadable(rows) {
            ReadableInAnyOrder(rows, listed);
          }
          return false;
        }
        compiled := compiled + [Compiled(CanonicalNet(listed[i].net.value), listed[i].action.value, listed[i].note)];
        assert listed[..i + 1] == listed[..i] + [listed[i]];
      }
      assert listed[..|listed|] == listed;
      ReadableInAnyOrder(listed, rows);
      cache, loaded := compiled, listed;
      return true;
    }

    /** First match wins; no match allows. */
    method MatchIp(ip: Address) returns (v: Verdict)
      requires Valid() && ValidAddress(ip)
      ensures v == FirstMatch(loaded, ip)
    {
      var a := ToCanonical(ip);
      for i := 0 to |cache|
        invariant FirstMatch(loaded, ip) == FirstMatch(loaded[i..], ip)
      {
        CompiledMeansCovers(loaded[i].net.value, ip);
        assert loaded[i..][0] == loaded[i] && loaded[i..][1..] == loaded[i + 1..];
        if Contains(cache[i].net, a) {
          return if cache[i].action == Allow then Allowed else Denied(cache[i].note);
        }
      }
      return Allowed;
    }

    /** `stored` is false when storage cannot write the row. */
    method Create(id: nat, position: int, createdAt: int, action: Action, net: Option<Net>, note: nat, stored: bool, listable: bool)
      returns (ok: bool)
      requires Valid() && (net.Some? ==> ValidNet(net.value))
      modifies this
      ensures Valid()
      ensures rows == if net.Some? && stored
                      then old(rows) + [Row(id, position, createdAt, Some(CanonicalNet(net.value)), Some(action), note)]
                      else old(rows)
      ensures ok <==> net.Some? && stored && listable && AllReadable(old(rows))
      ensures if ok then AllReadable(rows) && loaded == List(rows) else loaded == old(loaded)
    {
      if net == None || !stored {
        return false;
      }
      CanonicalIsValid(net.value);
      var row := Row(id, position, createdAt, Some(CanonicalNet(net.value)), Some(action), note);
      OneMoreReadable(rows, row);
      rows := rows + [row];
      ok := Reload(listable);
    }

    /** A rule that does not exist, or that storage cannot delete, changes nothing. */
    method Delete(id: nat, stored: bool, listable: bool) returns (ok: bool)
      requires Valid()
      modifies this
      ensures Valid()
      ensures rows == if stored then Without(old(rows), id) else old(rows)
      ensures ok <==> stored && HasId(old(rows), id) && listable && AllReadable(rows)
      ensures if ok then loaded == List(rows) else loaded == old(loaded)
    {
      var kept := Without(rows, id);
      WithoutNothing(rows, id);
      if !stored || |kept| == |rows| {
        return false;
      }
      rows := kept;
      ok := Reload(listable);
    }
  }

  predicate HasId(rows: seq<Row>, id: nat) {
    exists i :: 0 <= i < |rows| && rows[i].id == id
  }

  lemma OneMoreReadable(rows: seq<Row>, row: Row)
    requires Readable(row)
    ensures AllReadable(rows + [row]) <==> AllReadable(rows)
  {
    if AllReadable(rows + [row]) {
      forall i | 0 <= i < |rows| ensures Readable(rows[i]) {
        assert (rows + [row])[i] == rows[i];
      }
    }
  }

  function Without(rows: seq<Row>, id: nat): (r: seq<Row>)
    ensures |r| <= |rows|
  {
    if rows == [] then []
    else Without(rows[..|rows| - 1], id) + if rows[|rows| - 1].id == id then [] else [rows[|rows| - 1]]
  }

  lemma {:induction false} WithoutNothing(rows: seq<Row>, id: nat)
    ensures |Without(rows, id)| == |rows| ==> Without(rows, id) == rows
    ensures |Without(rows, id)| == |rows| <==> forall i :: 0 <= i < |rows| ==> rows[i].id != id
    decreases |rows|
  {
    if rows != [] {
      var init := rows[..|rows| - 1];
      WithoutNothing(init, id);
      assert rows == init + [rows[|rows| - 1]];
      assert forall i :: 0 <= i < |init| ==> init[i] == rows[i];
    }
  }

  lemma CanonicalIsValid(n: Net)
    requires ValidNet(n)
    ensures ValidNet(CanonicalNet(n))
  {
    var h := HostBits(n);
    HighClear(n.bits, h);
    HighHigh(n.bits, h, n.prefix);
    HighHigh(Clear(n.bits, h), h, n.prefix);
    if n.Net6? && n.prefix >= 96 && High(Trunc(n).bits, 32) == MAPPED {
      var y := Low(Trunc(n).bits, 32);
      JoinParts(Trunc(n).bits, 32);
      HighClear(y, h);
      HighHigh(y, h, n.prefix - 96);
      HighHigh(Clear(y, h), h, n.prefix - 96);
    }
  }

  /** Storing the canonical form changes nothing about what a rule covers. */
  lemma CanonicalCoversTheSame(n: Net, a: Address)
    requires ValidNet(n) && ValidAddress(a)
    ensures ValidNet(CanonicalNet(n)) && Covers(CanonicalNet(n), a) == Covers(n, a)
  {
    CanonicalIsValid(n);
    CompiledMeansCovers(n, a);
    JoinParts(a.bits, 32);
    if n.Net6? && n.prefix >= 96 && ToCanonical(a).V4? {
      TruncContains(n, ToMapped(ToCanonical(a).bits));
    }
    if n.Net6? && n.prefix >= 96 {
      MappedPart(n);
    }
  }

  /** The verdict is that of the first rule that covers the address, if any does. */
  lemma {:induction false} FirstMatchIsFirst(rows: seq<Row>, a: Address, i: nat)
    requires AllReadable(rows)
    ensures i < |rows| && Covers(rows[i].net.value, a) && (forall j :: 0 <= j < i ==> !Covers(rows[j].net.value, a)) ==>
              FirstMatch(rows, a) == if rows[i].action == Some(Allow) then Allowed else Denied(rows[i].note)
    ensures (forall j :: 0 <= j < |rows| ==> !Covers(rows[j].net.value, a)) ==> FirstMatch(rows, a) == Allowed
    decreases |rows|
  {
    hide Covers;
    if rows != [] && !Covers(rows[0].net.value, a) {
      FirstMatchIsFirst(rows[1..], a, if i > 0 then i - 1 else 0);
      NoneCovers(rows[1..], a);
    }
  }

  lemma {:induction false} NoneCovers(rows: seq<Row>, a: Address)
    requires AllReadable(rows)
    ensures (forall j :: 0 <= j < |rows| ==> !Covers(rows[j].net.value, a)) ==> FirstMatch(rows, a) == Allowed
    decreases |rows|
  {
    hide Covers;
    if rows != [] {
      NoneCovers(rows[1..], a);
      assert forall j :: 0 <= j < |rows| - 1 ==> rows[1..][j] == rows[j + 1];
    }
  }

  /** Deleting a rule takes that rule and no other. */
  lemma {:induction false} OthersStay(rows: seq<Row>, id: nat, r: Row)
    ensures multiset(Without(rows, id))[r] == if r.id == id then 0 else multiset(rows)[r]
    decreases |rows|
  {
    if rows != [] {
      var init, last := rows[..|rows| - 1], rows[|rows| - 1];
      assert rows == init + [last];
      OthersStay(init, id, r);
    }
  }
}

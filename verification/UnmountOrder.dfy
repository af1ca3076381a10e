/** umount_fs: the longest names first, so that nothing is unmounted under what is mounted on it. */
module UnmountOrder {
  import opened Options

  /** A path strictly below another one. */
  predicate Below(child: string, parent: string) {
    if parent == "/" then child != "/" && "/" <= child else parent + "/" <= child
  }

  lemma BelowIsLonger(child: string, parent: string)
    requires Below(child, parent)
    ensures |child| > |parent|
  {
  }

  /** compare_longest_first */
  function CompareLongestFirst(a: string, b: string): int {
    |b| - |a|
  }

  /** Behind all that do not compare greater. */
  function Insert(order: seq<string>, dir: string): seq<string> {
    if order == [] || CompareLongestFirst(order[0], dir) > 0 then [dir] + order
    else [order[0]] + Insert(order[1..], dir)
  }

  /** g_list_sort, which is stable. */
  function Sort(dirs: seq<string>): seq<string> {
    if dirs == [] then [] else Insert(Sort(dirs[..|dirs| - 1]), dirs[|dirs| - 1])
  }

  ghost predicate LongestFirst(order: seq<string>) {
    forall i, j | 0 <= i < j < |order| :: |order[i]| >= |order[j]|
  }

  lemma {:induction false} InsertKeeps(order: seq<string>, dir: string)
    ensures multiset(Insert(order, dir)) == multiset(order) + multiset{dir}
  {
    hide CompareLongestFirst;
    if order != [] {
      assert order == [order[0]] + order[1..];
      InsertKeeps(order[1..], dir);
    }
  }

  lemma {:induction false} InsertIs(order: seq<string>, dir: string)
    requires LongestFirst(order)
    ensures LongestFirst(Insert(order, dir))
  {
    if order != [] && |dir| <= |order[0]| {
      var rest := Insert(order[1..], dir);
      InsertIs(order[1..], dir);
      InsertKeeps(order[1..], dir);
      forall k | 0 <= k < |rest| ensures |rest[k]| <= |order[0]| {
        assert rest[k] in multiset(rest);
        assert rest[k] in multiset(order[1..]) || rest[k] == dir;
      }
    }
  }

  /** The order is that of the lengths, and a permutation of the mount table. */
  lemma {:induction false} SortIs(dirs: seq<string>)
    ensures LongestFirst(Sort(dirs)) && multiset(Sort(dirs)) == multiset(dirs)
  {
    if dirs != [] {
      var front, last := dirs[..|dirs| - 1], dirs[|dirs| - 1];
      SortIs(front);
      InsertIs(Sort(front), last);
      InsertKeeps(Sort(front), last);
      assert dirs == front + [last];
    }
  }

  /** No directory comes before a mount point below it. */
  lemma DeepestFirst(dirs: seq<string>, i: nat, j: nat)
    requires i < j < |Sort(dirs)|
    ensures !Below(Sort(dirs)[j], Sort(dirs)[i])
  {
    SortIs(dirs);
    if Below(Sort(dirs)[j], Sort(dirs)[i]) {
      BelowIsLonger(Sort(dirs)[j], Sort(dirs)[i]);
    }
  }

  /** The kernel's mounts: one is busy while another one is mounted below it. */
  class MountTable {
    var mounted: multiset<string>
    const refused: set<string>   // what umount fails on for other reasons, as on a file system in use

    constructor (mounted: multiset<string>, refused: set<string>)
      ensures this.mounted == mounted && this.refused == refused
    {
      this.mounted := mounted;
      this.refused := refused;
    }

    predicate Busy(dir: string)
      reads this
    {
      exists other | other in mounted :: Below(other, dir)
    }

    /** umount of the mount that is uppermost at `dir`. */
    method Umount(dir: string) returns (ok: bool)
      modifies this
      ensures ok <==> !old(Busy(dir)) && dir !in refused
      ensures mounted == if ok then old(mounted) - multiset{dir} else old(mounted)
    {
      ok := !Busy(dir) && dir !in refused;
      if ok {
        mounted := mounted - multiset{dir};
      }
    }
  }

  /** What cannot be unmounted: it is refused, or something mounted below it is. */
  ghost predicate Held(entries: seq<string>, refused: set<string>, dir: string) {
    dir in refused || exists other | other in entries && other in refused :: Below(other, dir)
  }

  /** The entries whose turn is over and the others, in the order of unmounting. */
  ghost predicate Unmounted(mounted: multiset<string>, entries: seq<string>, refused: set<string>, k: nat)
    requires k <= |Sort(entries)|
  {
    var order := Sort(entries);
    forall dir :: mounted[dir] ==
      multiset(order[k..])[dir] + if Held(entries, refused, dir) then multiset(order[..k])[dir] else 0
  }

  /**
    * umount_fs, on the table that it reads.  Failures are ignored, and still
    * all that can be unmounted is: an entry stays mounted, as often as the table
    * has it, if and only if it was refused or something stays mounted below it,
    * that is, if and only if it or something below it was refused.  Nothing
    * stays mounted if nothing is refused.
    */
  method UmountFs(table: MountTable, entries: seq<string>) returns (order: seq<string>)
    requires table.mounted == multiset(entries)
    modifies table
    ensures order == Sort(entries) && multiset(order) == multiset(entries)
    ensures forall dir | dir in entries ::
              dir in table.mounted <==> dir in table.refused || table.Busy(dir)
    ensures forall dir :: table.mounted[dir] ==
              if Held(entries, table.refused, dir) then multiset(entries)[dir] else 0
    ensures table.refused == {} ==> table.mounted == multiset{}
  {
    var mounts := [];
    var i := 0;
    while i < |entries|
      invariant i <= |entries| && mounts == entries[..i]
    {
      mounts := mounts + [entries[i]];
      i := i + 1;
    }
    assert mounts == entries;
    order := Sort(mounts);
    SortIs(entries);
    UnmountAll(table, entries);
    StaysMounted(table, entries);
  }

  method UnmountAll(table: MountTable, entries: seq<string>)
    requires table.mounted == multiset(Sort(entries))
    modifies table
    ensures Unmounted(table.mounted, entries, table.refused, |Sort(entries)|)
  {
    hide Below, CompareLongestFirst, Sort, Unmounted, Held, table.Busy;
    var order := Sort(entries);
    var k := 0;
    NothingDone(table.mounted, entries, table.refused);
    while k < |order|
      invariant k <= |order| && Unmounted(table.mounted, entries, table.refused, k)
    {
      BusyIsHeld(table, entries, k);
      ghost var before := table.mounted;
      var ok := table.Umount(order[k]);
      OneTurn(before, table.mounted, entries, table.refused, k);
      k := k + 1;
    }
  }

  lemma NothingDone(mounted: multiset<string>, entries: seq<string>, refused: set<string>)
    requires mounted == multiset(Sort(entries))
    ensures Unmounted(mounted, entries, refused, 0)
  {
    hide Sort, Held;
    var order := Sort(entries);
    assert order[0..] == order && order[..0] == [];
  }

  lemma Turn(order: seq<string>, k: nat, dir: string)
    requires k < |order|
    ensures var one := if dir == order[k] then 1 else 0;
            && multiset(order[k..])[dir] == multiset(order[k + 1..])[dir] + one
            && multiset(order[..k + 1])[dir] == multiset(order[..k])[dir] + one
  {
    assert order[k..] == [order[k]] + order[k + 1..];
    assert order[..k + 1] == order[..k] + [order[k]];
  }

  lemma OneTurn(before: multiset<string>, after: multiset<string>, entries: seq<string>, refused: set<string>, k: nat)
    requires k < |Sort(entries)| && Unmounted(before, entries, refused, k)
    requires var dir := Sort(entries)[k];
             after == if Held(entries, refused, dir) then before else before - multiset{dir}
    ensures Unmounted(after, entries, refused, k + 1)
  {
    hide Sort, Held;
    var order := Sort(entries);
    forall dir
      ensures after[dir] == multiset(order[k + 1..])[dir]
              + if Held(entries, refused, dir) then multiset(order[..k + 1])[dir] else 0
    {
      Turn(order, k, dir);
    }
  }

  /** When all had their turns. */
  lemma StaysMounted(table: MountTable, entries: seq<string>)
    requires Unmounted(table.mounted, entries, table.refused, |Sort(entries)|)
    ensures forall dir | dir in entries :: dir in table.mounted <==> dir in table.refused || table.Busy(dir)
    ensures forall dir :: table.mounted[dir] ==
              if Held(entries, table.refused, dir) then multiset(entries)[dir] else 0
    ensures table.refused == {} ==> table.mounted == multiset{}
  {
    hide Sort, Held;
    var order := Sort(entries);
    SortIs(entries);
    assert order[|order|..] == [] && order[..|order|] == order;
    forall dir ensures table.mounted[dir] ==
      if Held(entries, table.refused, dir) then multiset(entries)[dir] else 0 {
    }
    forall dir | dir in entries ensures dir in table.mounted <==> dir in table.refused || table.Busy(dir) {
      assert dir in multiset(entries);
      HeldIsBusy(table, entries, dir);
    }
    if table.refused == {} {
      forall dir ensures table.mounted[dir] == 0 {
        NothingHeld(entries, dir);
      }
    }
  }

  lemma NothingHeld(entries: seq<string>, dir: string)
    ensures !Held(entries, {}, dir)
  {
  }

  lemma HeldIsBusy(table: MountTable, entries: seq<string>, dir: string)
    requires forall other :: table.mounted[other] ==
               if Held(entries, table.refused, other) then multiset(entries)[other] else 0
    ensures Held(entries, table.refused, dir) <==> dir in table.refused || table.Busy(dir)
  {
    hide Below;
    if table.Busy(dir) {
      var other :| other in table.mounted && Below(other, dir);
      assert other in multiset(entries) && Held(entries, table.refused, other);
      HeldAbove(entries, table.refused, other, dir);
    }
    if other :| other in entries && other in table.refused && Below(other, dir) {
      assert other in multiset(entries) && Held(entries, table.refused, other);
      assert table.mounted[other] > 0;
    }
  }

  /** When the turn of a mount comes, what it has to wait for has had its turn. */
  lemma BusyIsHeld(table: MountTable, entries: seq<string>, k: nat)
    requires k < |Sort(entries)| && Unmounted(table.mounted, entries, table.refused, k)
    ensures table.Busy(Sort(entries)[k]) || Sort(entries)[k] in table.refused <==>
            Held(entries, table.refused, Sort(entries)[k])
  {
    hide Below, CompareLongestFirst, Sort;
    var order := Sort(entries);
    var dir := order[k];
    if table.Busy(dir) {
      var other :| other in table.mounted && Below(other, dir);
      NotAfter(entries, k, other);
      SortIs(entries);
      SplitAt(order, k, other);
      assert other in multiset(entries) && Held(entries, table.refused, other);
      HeldAbove(entries, table.refused, other, dir);
    }
    if other :| other in entries && other in table.refused && Below(other, dir) {
      NotAfter(entries, k, other);
      SortIs(entries);
      SplitAt(order, k, other);
      assert other in multiset(entries);
      assert Held(entries, table.refused, other);
      assert table.mounted[other] > 0;
    }
  }

  /** Nothing below a mount comes after it. */
  lemma NotAfter(entries: seq<string>, k: nat, other: string)
    requires k < |Sort(entries)| && Below(other, Sort(entries)[k])
    ensures multiset(Sort(entries)[k..])[other] == 0
  {
    hide Below, CompareLongestFirst, Sort;
    var rest := Sort(entries)[k..];
    if other in rest {
      var j :| 0 <= j < |rest| && rest[j] == other;
      if j > 0 {
        DeepestFirst(entries, k, k + j);
      } else {
        NotBelowItself(other);
      }
    }
  }

  lemma SplitAt(order: seq<string>, k: nat, dir: string)
    requires k <= |order|
    ensures multiset(order)[dir] == multiset(order[..k])[dir] + multiset(order[k..])[dir]
  {
    assert order == order[..k] + order[k..];
  }

  lemma HeldAbove(entries: seq<string>, refused: set<string>, dir: string, above: string)
    requires dir in entries && Held(entries, refused, dir) && Below(dir, above)
    ensures Held(entries, refused, above)
  {
    hide Below;
    if dir !in refused {
      var other :| other in entries && other in refused && Below(other, dir);
      BelowBelow(other, dir, above);
    }
  }

  lemma BelowBelow(a: string, b: string, c: string)
    requires Below(a, b) && Below(b, c)
    ensures Below(a, c)
  {
  }

  lemma NotBelowItself(dir: string)
    ensures !Below(dir, dir)
  {
  }
}

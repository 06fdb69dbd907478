/**
 * The admin hostel table: a selection of hostel ids driven by one checkbox per row and a
 * header checkbox, and the two counts shown above the table.
 */
module ManagementTable {
  import opened HostelTypes
  import opened Lists

  /** `hostels.map((h) => h.id)`. */
  function Ids(hostels: seq<Hostel>): (ids: seq<string>)
    ensures |ids| == |hostels|
    ensures forall i :: 0 <= i < |hostels| ==> ids[i] == hostels[i].id
    ensures forall x :: x in ids <==> exists k :: 0 <= k < |hostels| && hostels[k].id == x
  {
    seq(|hostels|, i requires 0 <= i < |hostels| => hostels[i].id)
  }

  /** No two hostels share an id. */
  predicate DistinctIds(hostels: seq<Hostel>) {
    NoDuplicates(Ids(hostels))
  }

  /** The header checkbox: checked when the selection is as long as the list, whatever it
      holds; selecting every id checks it. */
  predicate HeaderChecked(selected: seq<string>, hostels: seq<Hostel>)
    ensures selected == Ids(hostels) ==> HeaderChecked(selected, hostels)
  {
    |selected| == |hostels|
  }

  /** `hostels.filter((h) => h.availability).length`: the "Available" badge never shows more
      than the "Total" badge, and shows as many exactly when every hostel is available. */
  function AvailableCount(hostels: seq<Hostel>): (n: nat)
    ensures n <= |hostels|
    ensures n == |hostels| <==> forall i :: 0 <= i < |hostels| ==> hostels[i].availability
  {
    CountWhere(hostels, (h: Hostel) => h.availability)
  }

  /** The selection holds each id once, and only ids of listed hostels. */
  predicate SelectionValid(selected: seq<string>, hostels: seq<Hostel>) {
    NoDuplicates(selected) && forall id :: id in selected ==> id in Ids(hostels)
  }

  /** The elements of a duplicate-free sequence are as many as its length. */
  lemma {:induction false} DistinctElements(xs: seq<string>)
    requires NoDuplicates(xs)
    ensures |set x | x in xs| == |xs|
  {
    if xs != [] {
      var rest := xs[1..];
      assert NoDuplicates(rest) by {
        forall i, j | 0 <= i < j < |rest| ensures rest[i] != rest[j] {
          assert rest[i] == xs[i + 1] && rest[j] == xs[j + 1];
        }
      }
      DistinctElements(rest);
      assert xs[0] !in rest by {
        forall j | 0 <= j < |rest| ensures rest[j] != xs[0] {
          assert rest[j] == xs[j + 1];
        }
      }
      assert (set x | x in xs) == (set x | x in rest) + {xs[0]} by {
        assert xs == [xs[0]] + rest;
      }
    }
  }

  /** A subset is no larger than its superset. */
  lemma {:induction false} SubsetNoLarger(a: set<string>, b: set<string>)
    requires a <= b
    ensures |a| <= |b|
  {
    if b != {} {
      var y :| y in b;
      SubsetNoLarger(a - {y}, b - {y});
    }
  }

  /** A subset as large as its superset is the superset. */
  lemma SubsetOfSameSize(a: set<string>, b: set<string>)
    requires a <= b && |a| == |b|
    ensures a == b
  {
    if a != b {
      var x :| x in b && x !in a;
      SubsetNoLarger(a, b - {x});
    }
  }

  /** For a valid selection over hostels with distinct ids, the header checkbox is checked
      exactly when every hostel is selected. */
  lemma HeaderCheckedIffAllSelected(selected: seq<string>, hostels: seq<Hostel>)
    requires DistinctIds(hostels) && SelectionValid(selected, hostels)
    ensures HeaderChecked(selected, hostels) <==> forall i :: 0 <= i < |hostels| ==> hostels[i].id in selected
  {
    var ids := Ids(hostels);
    var chosen := set x | x in selected;
    var all := set x | x in ids;
    DistinctElements(selected);
    DistinctElements(ids);
    assert chosen <= all;
    if HeaderChecked(selected, hostels) {
      SubsetOfSameSize(chosen, all);
      forall i | 0 <= i < |hostels| ensures hostels[i].id in selected {
        assert ids[i] in all;
      }
    }
    if forall i :: 0 <= i < |hostels| ==> hostels[i].id in selected {
      assert all <= chosen by {
        forall x | x in all ensures x in chosen {
          var i :| 0 <= i < |ids| && ids[i] == x;
        }
      }
      assert chosen == all;
    }
  }

  /** Because the header looks only at lengths, a selection left over from an earlier list can
      check it while a listed hostel is not selected. */
  lemma StaleSelectionChecksHeader(h: Hostel, stale: string)
    requires stale != h.id
    ensures HeaderChecked([stale], [h]) && h.id !in [stale]
  {
  }

  /** Toggling a listed hostel's id keeps a valid selection valid. */
  lemma ToggleKeepsSelectionValid(selected: seq<string>, id: string, hostels: seq<Hostel>)
    requires SelectionValid(selected, hostels) && id in Ids(hostels)
    ensures SelectionValid(Toggle(selected, id), hostels)
  {
    ToggleKeepsNoDuplicates(selected, id);
  }

  /** The table component's state. */
  class HostelManagementTable {
    var selected: seq<string>

    constructor()
      ensures selected == []
    {
      selected := [];
    }

    /** `handleSelectAll`: clears a selection as long as the list, otherwise selects every
        hostel in list order; the header checkbox flips, except over an empty list, where it
        stays checked. */
    method HandleSelectAll(hostels: seq<Hostel>)
      modifies this
      ensures HeaderChecked(old(selected), hostels) ==> selected == []
      ensures !HeaderChecked(old(selected), hostels) ==> selected == Ids(hostels)
      ensures HeaderChecked(selected, hostels) <==> !HeaderChecked(old(selected), hostels) || hostels == []
      ensures DistinctIds(hostels) ==> SelectionValid(selected, hostels)
    {
      if |selected| == |hostels| {
        selected := [];
      } else {
        selected := Ids(hostels);
      }
    }

    /** `handleSelectHostel`: removes a selected id (every copy), otherwise appends it. */
    method HandleSelectHostel(id: string)
      modifies this
      ensures selected == Toggle(old(selected), id)
    {
      selected := Toggle(selected, id);
    }
  }
}

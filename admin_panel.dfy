/**
 * The admin panel: the list of hostels shown in the management table, the add-form switch
 * and the loading flag, updated around the add and delete requests; and the occupancy rate
 * shown from the statistics.
 */
module AdminPanel {
  import opened Wrappers
  import opened HostelTypes

  /** `hostels.filter((h) => h.id !== id)`. */
  function RemoveById(hostels: seq<Hostel>, id: string): (r: seq<Hostel>)
    ensures |r| <= |hostels|
  {
    if hostels == [] then []
    else (if hostels[0].id == id then [] else [hostels[0]]) + RemoveById(hostels[1..], id)
  }

  /** After the delete no hostel has the id, and every hostel with another id is still there. */
  lemma {:induction false} RemoveByIdMembers(hostels: seq<Hostel>, id: string)
    ensures forall h :: h in RemoveById(hostels, id) <==> h in hostels && h.id != id
  {
    if hostels != [] {
      RemoveByIdMembers(hostels[1..], id);
      assert hostels == [hostels[0]] + hostels[1..];
    }
  }

  /** Removing by id from a concatenation removes from each part: the kept hostels stay in
      their order. */
  lemma {:induction false} RemoveByIdAppend(a: seq<Hostel>, b: seq<Hostel>, id: string)
    ensures RemoveById(a + b, id) == RemoveById(a, id) + RemoveById(b, id)
  {
    if a == [] {
      assert a + b == b;
    } else {
      var head := if a[0].id == id then [] else [a[0]];
      RemoveByIdAppend(a[1..], b, id);
      assert (a + b)[0] == a[0] && (a + b)[1..] == a[1..] + b;
      calc {
        RemoveById(a + b, id);
        head + RemoveById(a[1..] + b, id);
        head + (RemoveById(a[1..], id) + RemoveById(b, id));
        (head + RemoveById(a[1..], id)) + RemoveById(b, id);
        RemoveById(a, id) + RemoveById(b, id);
      }
    }
  }

  /** No hostel with the id: nothing is removed. */
  lemma {:induction false} RemoveByIdAbsent(hostels: seq<Hostel>, id: string)
    requires forall i :: 0 <= i < |hostels| ==> hostels[i].id != id
    ensures RemoveById(hostels, id) == hostels
  {
    if hostels != [] {
      RemoveByIdAbsent(hostels[1..], id);
    }
  }

  /** A second delete of the same id changes nothing. */
  lemma RemoveByIdIdempotent(hostels: seq<Hostel>, id: string)
    ensures RemoveById(RemoveById(hostels, id), id) == RemoveById(hostels, id)
  {
    var r := RemoveById(hostels, id);
    RemoveByIdMembers(hostels, id);
    assert forall i :: 0 <= i < |r| ==> r[i] in r;
    RemoveByIdAbsent(r, id);
  }

  /** Deleting a hostel just added, whose id no earlier hostel had, gives back the earlier list. */
  lemma AddThenDeleteRestores(hostels: seq<Hostel>, added: Hostel)
    requires forall i :: 0 <= i < |hostels| ==> hostels[i].id != added.id
    ensures RemoveById(hostels + [added], added.id) == hostels
  {
    RemoveByIdAppend(hostels, [added], added.id);
    RemoveByIdAbsent(hostels, added.id);
    assert RemoveById([added], added.id) == [] by {
      assert [added][1..] == [];
    }
  }

  /** `Math.round(x)`: the nearest integer, halves rounding up. */
  function Round(x: real): (n: int)
    ensures n as real - 0.5 <= x < n as real + 0.5
  {
    (x + 0.5).Floor
  }

  /** The occupancy card: the available share of all hostels as a whole percentage, and 0
      when there are no hostels. */
  function OccupancyRate(totalHostels: int, availableHostels: int): (rate: int)
    ensures totalHostels <= 0 ==> rate == 0
    ensures totalHostels > 0 ==>
      var exact := availableHostels as real / totalHostels as real * 100.0;
      rate as real - 0.5 <= exact < rate as real + 0.5
  {
    if totalHostels > 0 then Round(availableHostels as real / totalHostels as real * 100.0) else 0
  }

  /** With no more available hostels than hostels, the rate is a percentage. */
  lemma OccupancyIsPercentage(totalHostels: int, availableHostels: int)
    requires 0 <= availableHostels <= totalHostels
    ensures 0 <= OccupancyRate(totalHostels, availableHostels) <= 100
  {
    if totalHostels > 0 {
      var share := availableHostels as real / totalHostels as real;
      assert 0.0 <= share <= 1.0 by {
        assert share * totalHostels as real == availableHostels as real;
      }
    }
  }

  /** The panel component's state. */
  class Panel {
    var hostels: seq<Hostel>
    var showAddForm: bool
    var isLoading: bool

    constructor()
      ensures hostels == [] && !showAddForm && !isLoading
    {
      hostels := [];
      showAddForm := false;
      isLoading := false;
    }

    /** `handleAddHostel` up to the request: the loading flag goes up. */
    method BeginAdd()
      modifies this
      ensures isLoading
      ensures hostels == old(hostels) && showAddForm == old(showAddForm)
    {
      isLoading := true;
    }

    /** `handleAddHostel` after the request: on success the new hostel is appended and the
        form closes; on failure the list and the form stay as they were and the error is
        passed on. The loading flag goes down either way. */
    method CompleteAdd(outcome: Result<Hostel, string>) returns (rethrown: Option<string>)
      modifies this
      ensures !isLoading
      ensures outcome.Success? ==> hostels == old(hostels) + [outcome.value] && !showAddForm && rethrown == None
      ensures outcome.Failure? ==>
        hostels == old(hostels) && showAddForm == old(showAddForm) && rethrown == Some(outcome.error)
    {
      match outcome {
        case Success(added) =>
          hostels := hostels + [added];
          showAddForm := false;
          rethrown := None;
        case Failure(error) =>
          rethrown := Some(error);
      }
      isLoading := false;
    }

    /** `handleDeleteHostel`: nothing happens unless the user confirms; after a successful
        request every hostel with the id is gone and the rest keep their order; a failed
        request leaves the list as it was. */
    method HandleDeleteHostel(id: string, confirmed: bool, outcome: Result<(), string>)
      modifies this
      ensures confirmed && outcome.Success? ==> hostels == RemoveById(old(hostels), id)
      ensures !confirmed || outcome.Failure? ==> hostels == old(hostels)
      ensures showAddForm == old(showAddForm) && isLoading == old(isLoading)
    {
      if !confirmed {
        return;
      }
      if outcome.Success? {
        hostels := RemoveById(hostels, id);
      }
    }
  }
}

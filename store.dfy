/**
 * The page state of script.js: the `savings` collection, `activeTab` and
 * `currentId`, with the event handlers that change them. Storage, the
 * clock, the file reader and the DOM are outside the model: their results
 * (an id, a date, an encoded image, the user's confirmation, the parsed
 * amount) are parameters of the methods.
 */
module SavingsStore {
  import opened Records
  import opened Listing
  import opened Detail

  /** No two records share an id. */
  predicate UniqueIds(s: seq<Record>)
  {
    forall i, j :: 0 <= i < j < |s| ==> s[i].id != s[j].id
  }

  predicate AllWellFormed(s: seq<Record>)
  {
    forall i :: 0 <= i < |s| ==> WellFormed(s[i])
  }

  predicate FreshId(s: seq<Record>, id: Id)
  {
    forall i :: 0 <= i < |s| ==> s[i].id != id
  }

  /** `savings.findIndex((s) => s.id === id)`: the first match, or -1. */
  function IndexOf(s: seq<Record>, id: Option<Id>): (i: int)
    ensures -1 <= i < |s|
    ensures i >= 0 ==> Some(s[i].id) == id && forall j :: 0 <= j < i ==> Some(s[j].id) != id
    ensures i == -1 <==> forall j :: 0 <= j < |s| ==> Some(s[j].id) != id
  {
    if s == [] then -1
    else if Some(s[0].id) == id then 0
    else
      var k := IndexOf(s[1..], id);
      if k == -1 then -1 else k + 1
  }

  /** `savings.filter((s) => s.id !== id)`. */
  function Without(s: seq<Record>, id: Option<Id>): (t: seq<Record>)
    ensures |t| <= |s|
    ensures forall r :: r in t <==> r in s && Some(r.id) != id
  {
    if s == [] then []
    else if Some(s[0].id) != id then [s[0]] + Without(s[1..], id)
    else Without(s[1..], id)
  }

  /** Deleting keeps the other records in their order: it distributes over concatenation. */
  lemma {:induction false} WithoutAppend(a: seq<Record>, b: seq<Record>, id: Option<Id>)
    ensures Without(a + b, id) == Without(a, id) + Without(b, id)
  {
    if a != [] {
      assert (a + b)[1..] == a[1..] + b;
      WithoutAppend(a[1..], b, id);
    } else {
      assert a + b == b;
    }
  }

  lemma {:induction false} WithoutAbsent(s: seq<Record>, id: Option<Id>)
    requires forall j :: 0 <= j < |s| ==> Some(s[j].id) != id
    ensures Without(s, id) == s
  {
    if s != [] {
      WithoutAbsent(s[1..], id);
    }
  }

  /**
   * With unique ids, deleting the record at position `i` removes it and
   * nothing else: the length drops by one.
   */
  lemma {:induction false} WithoutUnique(s: seq<Record>, i: int)
    requires UniqueIds(s) && 0 <= i < |s|
    ensures Without(s, Some(s[i].id)) == s[..i] + s[i + 1..]
    ensures |Without(s, Some(s[i].id))| == |s| - 1
  {
    var id := Some(s[i].id);
    assert s == s[..i] + ([s[i]] + s[i + 1..]);
    WithoutAppend(s[..i], [s[i]] + s[i + 1..], id);
    WithoutAppend([s[i]], s[i + 1..], id);
    WithoutAbsent(s[..i], id);
    WithoutAbsent(s[i + 1..], id);
    assert [s[i]][1..] == [];
  }

  /** Deleting keeps the collection invariant. */
  lemma {:induction false} WithoutKeepsInvariant(s: seq<Record>, id: Option<Id>)
    requires AllWellFormed(s) && UniqueIds(s)
    ensures AllWellFormed(Without(s, id)) && UniqueIds(Without(s, id))
  {
    if s != [] {
      WithoutKeepsInvariant(s[1..], id);
      var rest := Without(s[1..], id);
      if Some(s[0].id) != id {
        var t := [s[0]] + rest;
        forall i, j | 0 <= i < j < |t|
          ensures t[i].id != t[j].id
        {
          if i == 0 {
            assert t[j] in s[1..];
          }
        }
      }
    }
  }

  /** Replacing one record by a well-formed record with the same id keeps the collection invariant. */
  lemma ReplaceKeepsInvariant(s: seq<Record>, i: int, r: Record)
    requires AllWellFormed(s) && UniqueIds(s) && 0 <= i < |s|
    requires WellFormed(r) && r.id == s[i].id
    ensures AllWellFormed(s[i := r]) && UniqueIds(s[i := r])
  {
  }

  /** The result of a submit of the create/edit form. */
  datatype SubmitOutcome =
    | Created
    | Edited
      /** Edit mode with no record for `currentId`: `savings[-1]` throws before anything changes. */
    | EditTargetMissing

  /** `"nabung"` deposits; any other type withdraws. */
  datatype TxKind = Nabung | Tarik

  datatype TxOutcome =
    | Applied
      /** "Masukkan nominal valid": the amount is missing, unparsable or not positive. */
    | InvalidAmount
      /** No record has id `currentId`: a silent return. */
    | NoTarget
      /** "Saldo tidak cukup!": the withdrawal exceeds the balance. */
    | InsufficientFunds

  class Store {
    var savings: seq<Record>
    var activeTab: Tab
    /** The record opened in the detail view; None on the home view. */
    var currentId: Option<Id>

    ghost predicate Valid()
      reads this
    {
      AllWellFormed(savings) && UniqueIds(savings)
    }

    /** The page starts on the active tab of the home view with the stored collection. */
    constructor (stored: seq<Record>)
      requires AllWellFormed(stored) && UniqueIds(stored)
      ensures Valid()
      ensures savings == stored && activeTab == ActiveTab && currentId == None
    {
      savings := stored;
      activeTab := ActiveTab;
      currentId := None;
    }

    /** The records the home view shows for the current tab and the two selects. */
    function Home(key: SortKey, order: Order): (l: seq<Record>)
      reads this
      ensures multiset(l) == multiset(FilterTab(savings, activeTab))
      ensures Sorted(l, key, order)
    {
      HomeListing(savings, activeTab, key, order)
    }

    /** setTab: only the tab changes. */
    method SetTab(tab: Tab)
      modifies this
      ensures activeTab == tab
      ensures savings == old(savings) && currentId == old(currentId)
    {
      activeTab := tab;
    }

    /**
     * openDetail: `currentId` is set before the lookup, so it points at `id`
     * even when no record has that id; the view is only produced for a match.
     */
    method OpenDetail(id: Id) returns (view: Option<DetailView>)
      modifies this
      ensures currentId == Some(id)
      ensures savings == old(savings) && activeTab == old(activeTab)
      ensures IndexOf(savings, Some(id)) == -1 ==> view == None
      ensures IndexOf(savings, Some(id)) >= 0 ==> view == Some(DetailOf(savings[IndexOf(savings, Some(id))]))
    {
      currentId := Some(id);
      var i := IndexOf(savings, Some(id));
      if i == -1 {
        view := None;
      } else {
        view := Some(DetailOf(savings[i]));
      }
    }

    /** goHome: back to the list, no record open. */
    method GoHome()
      modifies this
      ensures currentId == None
      ensures savings == old(savings) && activeTab == old(activeTab)
    {
      currentId := None;
    }

    /**
     * The submit handler of the form. With no record open it appends a new
     * record built from the form, the fresh id `id` and the date
     * `createdDate`; with a record open it replaces that record in place by
     * its edited version and closes it.
     */
    method Submit(f: Form, id: Id, createdDate: string) returns (outcome: SubmitOutcome)
      requires Valid()
      requires currentId == None ==> FreshId(savings, id)
      modifies this
      ensures Valid()
      ensures activeTab == old(activeTab)
      ensures old(currentId) == None ==>
                outcome == Created && currentId == None
                && savings == old(savings) + [NewRecord(id, f, createdDate)]
      ensures old(currentId) != None && IndexOf(old(savings), old(currentId)) == -1 ==>
                outcome == EditTargetMissing && currentId == old(currentId) && savings == old(savings)
      ensures old(currentId) != None && IndexOf(old(savings), old(currentId)) >= 0 ==>
                var i := IndexOf(old(savings), old(currentId));
                outcome == Edited && currentId == None
                && savings == old(savings)[i := EditRecord(old(savings)[i], f)]
    {
      if currentId != None {
        var i := IndexOf(savings, currentId);
        if i == -1 {
          outcome := EditTargetMissing;
          return;
        }
        var edited := EditRecord(savings[i], f);
        ReplaceKeepsInvariant(savings, i, edited);
        savings := savings[i := edited];
        currentId := None;
        outcome := Edited;
      } else {
        savings := savings + [NewRecord(id, f, createdDate)];
        outcome := Created;
      }
    }

    /**
     * processTransaction: validate the amount, find the open record, then
     * deposit, or withdraw when the balance covers the amount. Only the open
     * record changes, and only its balance and history.
     */
    method ProcessTransaction(kind: TxKind, amount: Option<int>, date: string) returns (outcome: TxOutcome)
      requires Valid()
      modifies this
      ensures Valid()
      ensures activeTab == old(activeTab) && currentId == old(currentId)
      ensures outcome != Applied ==> savings == old(savings)
      ensures amount == None || amount.value <= 0 ==> outcome == InvalidAmount
      ensures amount != None && amount.value > 0 ==>
                var i := IndexOf(old(savings), old(currentId));
                var a := amount.value;
                && (i == -1 ==> outcome == NoTarget)
                && (i >= 0 && kind == Nabung ==>
                      outcome == Applied && savings == old(savings)[i := Deposit(old(savings)[i], a, date)])
                && (i >= 0 && kind == Tarik && old(savings)[i].collected < a ==> outcome == InsufficientFunds)
                && (i >= 0 && kind == Tarik && a <= old(savings)[i].collected ==>
                      outcome == Applied && savings == old(savings)[i := Withdraw(old(savings)[i], a, date)])
    {
      if amount == None || amount.value <= 0 {
        return InvalidAmount;
      }
      var a := amount.value;
      var i := IndexOf(savings, currentId);
      if i == -1 {
        return NoTarget;
      }
      var updated;
      if kind == Nabung {
        DepositKeepsWellFormed(savings[i], a, date);
        updated := Deposit(savings[i], a, date);
      } else {
        if savings[i].collected < a {
          return InsufficientFunds;
        }
        WithdrawKeepsWellFormed(savings[i], a, date);
        updated := Withdraw(savings[i], a, date);
      }
      ReplaceKeepsInvariant(savings, i, updated);
      savings := savings[i := updated];
      outcome := Applied;
    }

    /**
     * deleteCurrentTarget: once the user confirms, every record with id
     * `currentId` is removed and the page goes home.
     */
    method DeleteCurrentTarget(confirmed: bool)
      requires Valid()
      modifies this
      ensures Valid()
      ensures activeTab == old(activeTab)
      ensures !confirmed ==> savings == old(savings) && currentId == old(currentId)
      ensures confirmed ==> savings == Without(old(savings), old(currentId)) && currentId == None
    {
      if confirmed {
        WithoutKeepsInvariant(savings, currentId);
        savings := Without(savings, currentId);
        currentId := None;
      }
    }

    /** The reminder switch: only `reminderOn` of the open record changes. */
    method ToggleReminder(checked: bool)
      requires Valid()
      modifies this
      ensures Valid()
      ensures activeTab == old(activeTab) && currentId == old(currentId)
      ensures IndexOf(old(savings), currentId) == -1 ==> savings == old(savings)
      ensures IndexOf(old(savings), currentId) >= 0 ==>
                var i := IndexOf(old(savings), currentId);
                savings == old(savings)[i := old(savings)[i].(reminderOn := checked)]
    {
      var i := IndexOf(savings, currentId);
      if i != -1 {
        var updated := savings[i].(reminderOn := checked);
        ReplaceKeepsInvariant(savings, i, updated);
        savings := savings[i := updated];
      }
    }
  }

  /**
   * Creating then depositing: the new record starts empty and the deposit is
   * its one history entry.
   */
  method CreateThenDeposit(stored: seq<Record>, id: Id, f: Form, date: string, amount: int)
    returns (created: Record)
    requires AllWellFormed(stored) && UniqueIds(stored) && FreshId(stored, id)
    requires amount > 0
    ensures created.id == id && created.collected == amount
    ensures created.history == [HistoryEntry(date, amount, Add)]
  {
    var store := new Store(stored);
    var _ := store.Submit(f, id, date);
    var _ := store.OpenDetail(id);
    var outcome := store.ProcessTransaction(Nabung, Some(amount), date);
    created := store.savings[|store.savings| - 1];
  }
}

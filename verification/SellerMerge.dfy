/**
 Several browser tabs over one registration row. A tab that loses the race for a
 revision merges three ways: the snapshot it saw last, its unsaved form, and the
 row it fetched after the conflict.
 */
module SellerMerge {
  import opened Wrappers
  import opened Utf16
  import opened SellerRows
  import opened SellerHandlers
  import opened SellerInvariants
  import opened SellerTheorems
  import opened SellerReplay

  datatype Field = StoreName | OwnerName | Phone | City | Address | PostalCode
  datatype Choice = Mine | Server | Undecided

  function Get<T>(x: PerField<T>, k: Field): T {
    match k
    case StoreName => x.storeName
    case OwnerName => x.ownerName
    case Phone => x.phone
    case City => x.city
    case Address => x.address
    case PostalCode => x.postalCode
  }

  /** `Object.fromEntries(keys.map(...))`. */
  function FromEntries<T>(f: Field -> T): (r: PerField<T>)
    ensures forall k :: Get(r, k) == f(k)
  {
    PerField(f(StoreName), f(OwnerName), f(Phone), f(City), f(Address), f(PostalCode))
  }

  const KEYS := [StoreName, OwnerName, Phone, City, Address, PostalCode]

  lemma EveryKeyListed(k: Field)
    ensures k in KEYS
  {
    assert KEYS[0] == StoreName && KEYS[1] == OwnerName && KEYS[2] == Phone
        && KEYS[3] == City && KEYS[4] == Address && KEYS[5] == PostalCode;
  }

  function Filter(keys: seq<Field>, p: Field -> bool): (r: seq<Field>)
    ensures forall k :: k in r <==> k in keys && p(k)
  {
    if keys == [] then [] else (if p(keys[0]) then [keys[0]] else []) + Filter(keys[1..], p)
  }

  function Differences(mine: StoreFields, server: StoreFields): seq<Field> {
    Filter(KEYS, (k: Field) => Get(mine, k) != Get(server, k))
  }

  function Suggest(seen: StoreFields, mine: StoreFields, current: StoreFields): PerField<Choice> {
    FromEntries((k: Field) =>
      if Get(mine, k) == Get(current, k) then Server
      else
        var changedLocally := Get(mine, k) != Get(seen, k);
        var changedRemotely := Get(current, k) != Get(seen, k);
        if changedLocally && changedRemotely then Undecided else if changedLocally then Mine else Server)
  }

  function Unresolved(mine: StoreFields, current: StoreFields, choices: PerField<Choice>): nat {
    |Filter(Differences(mine, current), (k: Field) => Get(choices, k).Undecided?)|
  }

  datatype Merge = Merge(fields: StoreFields, revision: int, saved: bool)

  function Combine(mine: StoreFields, server: StoreFields, revision: int, choices: PerField<Choice>): Option<Merge> {
    if Unresolved(mine, server, choices) != 0 then None
    else
      var merged := FromEntries((k: Field) =>
        if Get(mine, k) == Get(server, k) || Get(choices, k).Server? then Get(server, k) else Get(mine, k));
      Some(Merge(merged, revision, |Differences(merged, server)| == 0))
  }

  /** Independent reference: the value a three-way merge of one field must have. */
  function ThreeWay(seen: Text, mine: Text, current: Text, pickMine: bool): Text {
    if mine == seen then current
    else if current == seen then mine
    else if pickMine then mine else current
  }

  predicate Contested(seen: StoreFields, mine: StoreFields, current: StoreFields, k: Field) {
    Get(mine, k) != Get(seen, k) && Get(current, k) != Get(seen, k) && Get(mine, k) != Get(current, k)
  }

  lemma SameEverywhere(x: StoreFields, y: StoreFields)
    requires forall k :: Get(x, k) == Get(y, k)
    ensures x == y
  {
    assert Get(x, StoreName) == Get(y, StoreName) && Get(x, OwnerName) == Get(y, OwnerName);
    assert Get(x, Phone) == Get(y, Phone) && Get(x, City) == Get(y, City);
    assert Get(x, Address) == Get(y, Address) && Get(x, PostalCode) == Get(y, PostalCode);
  }

  lemma NoDifferences(x: StoreFields, y: StoreFields)
    ensures |Differences(x, y)| == 0 <==> x == y
  {
    if |Differences(x, y)| == 0 {
      forall k ensures Get(x, k) == Get(y, k) {
        EveryKeyListed(k);
        assert k !in Differences(x, y);
      }
      SameEverywhere(x, y);
    } else {
      assert Differences(x, y)[0] in Differences(x, y);
    }
  }

  /** The user is asked exactly about the fields both sides changed, to different values. */
  lemma AskedWhereContested(seen: StoreFields, mine: StoreFields, current: StoreFields, k: Field)
    ensures Get(Suggest(seen, mine, current), k).Undecided? <==> Contested(seen, mine, current, k)
  {
  }

  /** Choices that follow the suggestion wherever it made one. */
  predicate Follows(choices: PerField<Choice>, suggested: PerField<Choice>) {
    forall k :: Get(suggested, k).Undecided? || Get(choices, k) == Get(suggested, k)
  }

  lemma RefusedWhileUndecided(seen: StoreFields, mine: StoreFields, server: StoreFields, choices: PerField<Choice>)
    requires Follows(choices, Suggest(seen, mine, server))
    ensures Unresolved(mine, server, choices) != 0 <==>
            exists k :: Contested(seen, mine, server, k) && Get(choices, k).Undecided?
  {
    hide Get, Suggest, Differences;
    var differences := Differences(mine, server);
    var undecided := Filter(differences, (k: Field) => Get(choices, k).Undecided?);
    forall k ensures k in differences <==> Get(mine, k) != Get(server, k) { DifferenceAt(mine, server, k); }
    forall k ensures Get(Suggest(seen, mine, server), k).Undecided? <==> Contested(seen, mine, server, k) {
      AskedWhereContested(seen, mine, server, k);
    }
    if undecided != [] {
      var k := undecided[0];
      assert k in undecided;
      assert Contested(seen, mine, server, k) && Get(choices, k).Undecided?;
    } else {
      forall k ensures !(Contested(seen, mine, server, k) && Get(choices, k).Undecided?) {
        assert k !in undecided;
      }
    }
  }

  lemma DifferenceAt(mine: StoreFields, server: StoreFields, k: Field)
    ensures k in Differences(mine, server) <==> Get(mine, k) != Get(server, k)
  {
    EveryKeyListed(k);
  }

  /** The merge is refused exactly while a contested field is undecided; otherwise every
      field is the three-way merge, so a change made on one side only is always kept, and
      "saved" is reported exactly when the result is what the server already has. */
  lemma MergeIsThreeWay(seen: StoreFields, mine: StoreFields, server: StoreFields, revision: int, choices: PerField<Choice>)
    requires Follows(choices, Suggest(seen, mine, server))
    ensures var merge := Combine(mine, server, revision, choices);
            && (merge.None? <==> exists k :: Contested(seen, mine, server, k) && Get(choices, k).Undecided?)
            && (merge.Some? ==>
                && merge.value.revision == revision
                && (forall k :: Get(merge.value.fields, k)
                      == ThreeWay(Get(seen, k), Get(mine, k), Get(server, k), Get(choices, k).Mine?))
                && (merge.value.saved <==> merge.value.fields == server))
  {
    hide Get, Differences, Unresolved;
    RefusedWhileUndecided(seen, mine, server, choices);
    var merge := Combine(mine, server, revision, choices);
    if merge.Some? {
      forall k ensures Get(merge.value.fields, k)
          == ThreeWay(Get(seen, k), Get(mine, k), Get(server, k), Get(choices, k).Mine?)
      {
        AskedWhereContested(seen, mine, server, k);
        assert Contested(seen, mine, server, k) ==> !Get(choices, k).Undecided?;
      }
      NoDifferences(merge.value.fields, server);
    }
  }

  /** Two tabs that edited different fields of the same snapshot: the second to save merges
      without a question, and both edits are in the result. */
  lemma DisjointEditsSurvive(seen: StoreFields, first: StoreFields, second: StoreFields, revision: int)
    requires forall k :: Get(first, k) == Get(seen, k) || Get(second, k) == Get(seen, k)
    ensures var merge := Combine(second, first, revision, Suggest(seen, second, first));
            && merge.Some?
            && forall k :: Get(merge.value.fields, k) ==
                 if Get(first, k) != Get(seen, k) then Get(first, k) else Get(second, k)
  {
    MergeIsThreeWay(seen, second, first, revision, Suggest(seen, second, first));
  }

  /** A save that succeeds overwrites exactly the row its tab had read, whatever happened in
      between; with the merge's revision that is the row the merge was computed from. */
  lemma SaveOverwritesWhatWasRead(first: Schedule, second: Schedule, a: Guid, fields: StoreFields, now: Instant)
    requires a in Run(EMPTY_DB, first).drafts
    requires var row := Run(EMPTY_DB, first).drafts[a];
             Handle(Run(EMPTY_DB, first + second), SaveStore(a, Some(row.revision), Some(fields), true), now).1.Saved?
    ensures var row := Run(EMPTY_DB, first).drafts[a];
            var before := Run(EMPTY_DB, first + second);
            var after := Handle(before, SaveStore(a, Some(row.revision), Some(fields), true), now).0;
            && a in before.drafts && before.drafts[a] == row
            && after == Put(before, a, Advance(row, row.applicant.(store := fields), now))
  {
    hide Run, Inv;
    EveryRunKeeps(first);
    RevisionRange(Run(EMPTY_DB, first), a);
    SameRevisionSameRow(first, second, a);
  }
}

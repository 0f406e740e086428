/**
 * The customer table: its generation loop and the two noise passes that
 * then change it in place (missing contact columns, duplicated identities).
 *
 * A row is the list `[cid, name, gender, dob, email, phone, address, tier,
 * reg_date, total_spent]`; the table is an array of such rows.
 */
module Customers {
  import opened Config
  import opened Dates

  datatype Gender = Male | Female | NonBinary | PreferNotToSay

  /** Ordinal tier: Bronze < Silver < Gold < Platinum. */
  datatype Tier = Bronze | Silver | Gold | Platinum

  datatype Customer = Customer(
    id: int,
    name: string,
    gender: Gender,
    birthDate: int,
    email: Option<string>,
    phone: Option<string>,
    address: Option<string>,
    tier: Tier,
    registered: int,
    totalSpent: int)

  /**
   * The draws one customer takes. Name, email, phone and address come from
   * the text generator and are opaque; `ageDays` is the draw
   * `randint(18*365, 70*365)` and `registrationOffset` the draw of
   * `rand_date(2018, 2024)`.
   */
  datatype CustomerDraw = CustomerDraw(
    name: string, gender: Gender, ageDays: int, email: string, phone: string,
    address: string, tier: Tier, registrationOffset: int)

  predicate ValidCustomerDraw(d: CustomerDraw)
  {
    && 18 * 365 <= d.ageDays <= 70 * 365
    && 0 <= d.registrationOffset <= SpanDays(2018, 2024)
  }

  /** `address.replace("\n", ", ")`: the address on a single line. */
  function FlattenAddress(s: string): (r: string)
    ensures forall i :: 0 <= i < |r| ==> r[i] != '\n'
    ensures (forall i :: 0 <= i < |s| ==> s[i] != '\n') ==> r == s
    ensures |r| >= |s|
  {
    if |s| == 0 then ""
    else FlattenAddress(s[..|s| - 1]) + (if s[|s| - 1] == '\n' then ", " else [s[|s| - 1]])
  }

  predicate HasAllContacts(c: Customer)
  {
    c.email.Some? && c.phone.Some? && c.address.Some?
  }

  /** Number of the contact columns (email, phone, address) that are null. */
  function MissingContacts(c: Customer): nat
  {
    (if c.email.None? then 1 else 0) + (if c.phone.None? then 1 else 0) + (if c.address.None? then 1 else 0)
  }

  /**
   * Row `id` as the generation loop builds it; `today` is the clock reading
   * the birth date is taken from. The row starts with all three contact
   * columns filled and `total_spent` 0, is born 18 to 70 years (of 365 days)
   * before `today` and registered in 2018 to 2024.
   */
  function NewCustomer(today: int, d: CustomerDraw, id: int): (r: Customer)
    requires ValidCustomerDraw(d)
    ensures r.id == id && r.totalSpent == 0 && HasAllContacts(r)
    ensures r.email == Some(d.email) && r.phone == Some(d.phone)
    ensures r.address == Some(FlattenAddress(d.address))
    ensures today - 70 * 365 <= r.birthDate <= today - 18 * 365
    ensures Jan1(2018) <= r.registered <= Dec31(2024)
  {
    Customer(id, d.name, d.gender, today - d.ageDays, Some(d.email), Some(d.phone),
             Some(FlattenAddress(d.address)), d.tier, RandDate(2018, 2024, d.registrationOffset), 0)
  }

  /**
   * The customer loop: ids run from 1 without gaps, every row starts with
   * all three contact columns filled and `total_spent` 0, the birth date is
   * 18 to 70 years (of 365 days) before `today` and the registration date
   * lies in 2018 to 2024.
   */
  method BuildCustomers(today: int, draws: seq<CustomerDraw>) returns (rows: seq<Customer>)
    requires forall k :: 0 <= k < |draws| ==> ValidCustomerDraw(draws[k])
    ensures |rows| == |draws|
    ensures forall k :: 0 <= k < |rows| ==> rows[k] == NewCustomer(today, draws[k], k + 1)
    ensures forall k :: 0 <= k < |rows| ==>
      && rows[k].id == k + 1
      && rows[k].totalSpent == 0
      && HasAllContacts(rows[k])
      && today - 70 * 365 <= rows[k].birthDate <= today - 18 * 365
      && Jan1(2018) <= rows[k].registered <= Dec31(2024)
  {
    rows := [];
    var cid := 1;
    while cid <= |draws|
      invariant 1 <= cid <= |draws| + 1
      invariant |rows| == cid - 1
      invariant forall k :: 0 <= k < |rows| ==> rows[k] == NewCustomer(today, draws[k], k + 1)
    {
      var d := draws[cid - 1];
      var dob := today - d.ageDays;
      var address := FlattenAddress(d.address);
      var regDate := RandDate(2018, 2024, d.registrationOffset);
      var totalSpent := 0;
      rows := rows + [Customer(cid, d.name, d.gender, dob, Some(d.email), Some(d.phone), Some(address), d.tier, regDate, totalSpent)];
      cid := cid + 1;
    }
  }

  // ---------------------------------------------------------------------
  // Missing contact fields
  // ---------------------------------------------------------------------

  /** The contact columns: index 4 (email), 5 (phone) and 6 (address) of a row. */
  datatype Contact = Email | Phone | Address

  function Blank(c: Customer, col: Contact): (r: Customer)
    ensures MissingContacts(r) >= MissingContacts(c)
    ensures HasAllContacts(c) ==> MissingContacts(r) == 1
  {
    match col
    case Email => c.(email := None)
    case Phone => c.(phone := None)
    case Address => c.(address := None)
  }

  /** `int(0.02 * len(customers))`. */
  function MissingCount(n: nat): (r: nat)
    ensures r * 100 <= 2 * n < (r + 1) * 100
    ensures r <= n
  {
    n * 2 / 100
  }

  /**
   * One row index of a `random.sample(range(n), k)` call together with the
   * further draws the loop body makes for that row.
   */
  datatype Pick<C> = Pick(row: nat, choice: C)

  /** The sampled row indices, in sampling order. */
  function PickedRows<C>(picks: seq<Pick<C>>): (r: seq<nat>)
    ensures |r| == |picks|
    ensures forall k :: 0 <= k < |r| ==> r[k] == picks[k].row
  {
    seq(|picks|, k requires 0 <= k < |picks| => picks[k].row)
  }

  /** One row of `random.sample(range(n), num_missing)` with its column `random.choice([4, 5, 6])`. */
  type MissingPick = Pick<Contact>

  /** Only the contact columns may change, and a changed one becomes null. */
  predicate SameExceptContacts(before: Customer, after: Customer)
  {
    && after.id == before.id
    && after.name == before.name
    && after.gender == before.gender
    && after.birthDate == before.birthDate
    && after.tier == before.tier
    && after.registered == before.registered
    && after.totalSpent == before.totalSpent
    && (after.email == before.email || after.email.None?)
    && (after.phone == before.phone || after.phone.None?)
    && (after.address == before.address || after.address.None?)
  }

  /** The table after the first `|picks|` steps of the missing-contact pass. */
  function ApplyMissing(rows: seq<Customer>, picks: seq<MissingPick>): (r: seq<Customer>)
    requires forall k :: 0 <= k < |picks| ==> picks[k].row < |rows|
    ensures |r| == |rows|
    ensures forall i :: 0 <= i < |rows| ==> SameExceptContacts(rows[i], r[i])
  {
    if |picks| == 0 then rows
    else
      var prev := ApplyMissing(rows, picks[..|picks| - 1]);
      var p := picks[|picks| - 1];
      prev[p.row := Blank(prev[p.row], p.choice)]
  }

  /**
   * With distinct rows, each picked row has exactly its chosen column
   * nulled, and every row that was not picked is unchanged.
   */
  lemma {:induction false} MissingEffect(rows: seq<Customer>, picks: seq<MissingPick>)
    requires forall k :: 0 <= k < |picks| ==> picks[k].row < |rows|
    requires Distinct(PickedRows(picks))
    ensures forall k :: 0 <= k < |picks| ==>
      ApplyMissing(rows, picks)[picks[k].row] == Blank(rows[picks[k].row], picks[k].choice)
    ensures forall i :: 0 <= i < |rows| && i !in Covered(PickedRows(picks)) ==>
      ApplyMissing(rows, picks)[i] == rows[i]
  {
    if |picks| > 0 {
      var init := picks[..|picks| - 1];
      var p := picks[|picks| - 1];
      assert PickedRows(init) == PickedRows(picks)[..|picks| - 1];
      MissingEffect(rows, init);
      var prev := ApplyMissing(rows, init);
      assert p.row !in Covered(PickedRows(init)) by {
        forall k | 0 <= k < |init| ensures PickedRows(init)[k] != p.row {
          assert PickedRows(picks)[k] != PickedRows(picks)[|picks| - 1];
        }
      }
      forall i | 0 <= i < |rows| && i !in Covered(PickedRows(picks))
        ensures ApplyMissing(rows, picks)[i] == rows[i]
      {
        assert i != p.row by { assert PickedRows(picks)[|picks| - 1] == p.row; }
        assert i !in Covered(PickedRows(init)) by {
          forall k | 0 <= k < |init| ensures PickedRows(init)[k] != i {
            assert PickedRows(picks)[k] == PickedRows(init)[k];
          }
        }
      }
    }
  }

  /**
   * The missing-contact pass on a table whose rows all have their three
   * contact columns: exactly `|picks|` rows end up with a null contact
   * column, and each of those has exactly one.
   */
  lemma MissingRowsCounted(rows: seq<Customer>, picks: seq<MissingPick>)
    requires forall k :: 0 <= k < |picks| ==> picks[k].row < |rows|
    requires Distinct(PickedRows(picks))
    requires forall i :: 0 <= i < |rows| ==> HasAllContacts(rows[i])
    ensures (set i | 0 <= i < |rows| && !HasAllContacts(ApplyMissing(rows, picks)[i])) == Covered(PickedRows(picks))
    ensures |set i | 0 <= i < |rows| && !HasAllContacts(ApplyMissing(rows, picks)[i])| == |picks|
    ensures forall i :: 0 <= i < |rows| && !HasAllContacts(ApplyMissing(rows, picks)[i]) ==>
      MissingContacts(ApplyMissing(rows, picks)[i]) == 1
  {
    var r := ApplyMissing(rows, picks);
    MissingEffect(rows, picks);
    DistinctCard(PickedRows(picks));
    forall i | i in Covered(PickedRows(picks))
      ensures 0 <= i < |rows| && !HasAllContacts(r[i]) && MissingContacts(r[i]) == 1
    {
      var k :| 0 <= k < |picks| && PickedRows(picks)[k] == i;
      assert r[picks[k].row] == Blank(rows[picks[k].row], picks[k].choice);
    }
  }

  /**
   * The missing-contact pass, in place: `num_missing` distinct rows, each
   * with one contact column set to null.
   */
  method InjectMissingContacts(customers: array<Customer>, picks: seq<MissingPick>)
    requires |picks| == MissingCount(customers.Length)
    requires forall k :: 0 <= k < |picks| ==> picks[k].row < customers.Length
    requires Distinct(PickedRows(picks))
    modifies customers
    ensures customers[..] == ApplyMissing(old(customers[..]), picks)
    ensures forall k :: 0 <= k < |picks| ==>
      customers[picks[k].row] == Blank(old(customers[picks[k].row]), picks[k].choice)
    ensures forall i :: 0 <= i < customers.Length && i !in Covered(PickedRows(picks)) ==>
      customers[i] == old(customers[i])
  {
    ghost var original := customers[..];
    var i := 0;
    while i < |picks|
      invariant 0 <= i <= |picks|
      invariant customers[..] == ApplyMissing(original, picks[..i])
    {
      var idx := picks[i].row;
      var col := picks[i].choice;
      assert picks[..i + 1][..i] == picks[..i];
      customers[idx] := Blank(customers[idx], col);
      i := i + 1;
    }
    assert picks[..|picks|] == picks;
    MissingEffect(original, picks);
  }

  // ---------------------------------------------------------------------
  // Duplicate names / emails
  // ---------------------------------------------------------------------

  /** `int(0.01 * len(customers))`. */
  function DuplicateCount(n: nat): (r: nat)
    ensures r * 100 <= n < (r + 1) * 100
    ensures r <= n
  {
    n / 100
  }

  /**
   * One target of `random.sample(range(n), num_dup)`, the row picked by
   * `random.choice(customers)` as its source, and whether `random.random() < 0.5`.
   * The source may be the target itself or an earlier target.
   */
  type DuplicatePick = Pick<CopySource>

  datatype CopySource = CopySource(source: nat, copyEmail: bool)

  predicate DuplicatePicksInRange(picks: seq<DuplicatePick>, n: nat)
  {
    forall k :: 0 <= k < |picks| ==> picks[k].row < n && picks[k].choice.source < n
  }

  /** One step: the target takes the source's current name, and its email when the coin says so. */
  function CopyIdentity(rows: seq<Customer>, p: DuplicatePick): (r: seq<Customer>)
    requires p.row < |rows| && p.choice.source < |rows|
    ensures |r| == |rows|
    ensures r[p.row].name == rows[p.choice.source].name
    ensures r[p.row].email == if p.choice.copyEmail then rows[p.choice.source].email else rows[p.row].email
    ensures r[p.row] == rows[p.row].(name := r[p.row].name, email := r[p.row].email)
    ensures forall i :: 0 <= i < |rows| && i != p.row ==> r[i] == rows[i]
  {
    var src := rows[p.choice.source];
    var target := rows[p.row].(name := src.name);
    rows[p.row := if p.choice.copyEmail then target.(email := src.email) else target]
  }

  /** Everything but the name and the email column is unchanged. */
  predicate SameExceptIdentity(before: Customer, after: Customer)
  {
    && after.id == before.id
    && after.gender == before.gender
    && after.birthDate == before.birthDate
    && after.phone == before.phone
    && after.address == before.address
    && after.tier == before.tier
    && after.registered == before.registered
    && after.totalSpent == before.totalSpent
  }

  predicate NameOccurs(rows: seq<Customer>, name: string)
  {
    exists i :: 0 <= i < |rows| && rows[i].name == name
  }

  predicate EmailOccurs(rows: seq<Customer>, email: Option<string>)
  {
    exists i :: 0 <= i < |rows| && rows[i].email == email
  }

  /**
   * The table after the first `|picks|` steps of the duplicate pass. Each
   * step reads its source from the table as the earlier steps left it.
   * Only names and emails change.
   */
  function ApplyDuplicates(rows: seq<Customer>, picks: seq<DuplicatePick>): (r: seq<Customer>)
    requires DuplicatePicksInRange(picks, |rows|)
    ensures |r| == |rows|
    ensures forall i :: 0 <= i < |rows| ==> SameExceptIdentity(rows[i], r[i])
  {
    if |picks| == 0 then rows
    else
      var prev := ApplyDuplicates(rows, picks[..|picks| - 1]);
      CopyIdentity(prev, picks[|picks| - 1])
  }

  /** Every name and email left by the duplicate pass was already in the table: the pass copies, it never invents. */
  lemma {:induction false} DuplicatesCopyExisting(rows: seq<Customer>, picks: seq<DuplicatePick>, i: nat)
    requires DuplicatePicksInRange(picks, |rows|)
    requires i < |rows|
    ensures NameOccurs(rows, ApplyDuplicates(rows, picks)[i].name)
    ensures EmailOccurs(rows, ApplyDuplicates(rows, picks)[i].email)
  {
    if |picks| == 0 {
      assert rows[i].name == ApplyDuplicates(rows, picks)[i].name;
      assert rows[i].email == ApplyDuplicates(rows, picks)[i].email;
    } else {
      var init := picks[..|picks| - 1];
      var p := picks[|picks| - 1];
      var prev := ApplyDuplicates(rows, init);
      var r := ApplyDuplicates(rows, picks);
      assert r == CopyIdentity(prev, p);
      if i == p.row {
        DuplicatesCopyExisting(rows, init, p.choice.source);
        assert r[i].name == prev[p.choice.source].name;
        if p.choice.copyEmail {
          assert r[i].email == prev[p.choice.source].email;
        } else {
          DuplicatesCopyExisting(rows, init, i);
          assert r[i].email == prev[i].email;
        }
      } else {
        DuplicatesCopyExisting(rows, init, i);
        assert r[i] == prev[i];
      }
    }
  }

  /** Rows that are not duplicate targets are left entirely unchanged. */
  lemma {:induction false} DuplicatesUntouched(rows: seq<Customer>, picks: seq<DuplicatePick>, i: nat)
    requires DuplicatePicksInRange(picks, |rows|)
    requires i < |rows| && i !in Covered(PickedRows(picks))
    ensures ApplyDuplicates(rows, picks)[i] == rows[i]
  {
    if |picks| > 0 {
      var init := picks[..|picks| - 1];
      assert i !in Covered(PickedRows(init)) by {
        forall k | 0 <= k < |init| ensures PickedRows(init)[k] != i {
          assert PickedRows(picks)[k] == PickedRows(init)[k];
        }
      }
      assert picks[|picks| - 1].row != i by { assert PickedRows(picks)[|picks| - 1] == picks[|picks| - 1].row; }
      DuplicatesUntouched(rows, init, i);
    }
  }

  /** A pick whose source is its own target changes nothing. */
  lemma SelfCopyIsNoOp(rows: seq<Customer>, p: DuplicatePick)
    requires p.row < |rows| && p.choice.source == p.row
    ensures CopyIdentity(rows, p) == rows
  {
  }

  /**
   * Chained duplication is kept: when a later pick takes as its source an
   * earlier target, it receives the name that target had copied.
   */
  lemma ChainedCopy(rows: seq<Customer>, first: DuplicatePick, second: DuplicatePick)
    requires first.row < |rows| && first.choice.source < |rows| && second.row < |rows|
    requires second.choice.source == first.row && second.row != first.row
    ensures DuplicatePicksInRange([first, second], |rows|)
    ensures ApplyDuplicates(rows, [first, second])[second.row].name == rows[first.choice.source].name
  {
    var picks := [first, second];
    assert picks[..1] == [first];
    assert [first][..0] == [];
    var afterFirst := CopyIdentity(rows, first);
    assert ApplyDuplicates(rows, [first]) == afterFirst;
    assert afterFirst[first.row].name == rows[first.choice.source].name;
    assert ApplyDuplicates(rows, picks) == CopyIdentity(afterFirst, second);
  }

  /**
   * The duplicate pass, in place: `num_dup` distinct target rows; only
   * their name and email columns can change.
   */
  method InjectDuplicates(customers: array<Customer>, picks: seq<DuplicatePick>)
    requires |picks| == DuplicateCount(customers.Length)
    requires DuplicatePicksInRange(picks, customers.Length)
    requires Distinct(PickedRows(picks))
    modifies customers
    ensures customers[..] == ApplyDuplicates(old(customers[..]), picks)
    ensures forall i :: 0 <= i < customers.Length ==> SameExceptIdentity(old(customers[i]), customers[i])
    ensures forall i :: 0 <= i < customers.Length && i !in Covered(PickedRows(picks)) ==>
      customers[i] == old(customers[i])
  {
    ghost var original := customers[..];
    var i := 0;
    while i < |picks|
      invariant 0 <= i <= |picks|
      invariant customers[..] == ApplyDuplicates(original, picks[..i])
    {
      var idx := picks[i].row;
      var src := customers[picks[i].choice.source];
      assert picks[..i + 1][..i] == picks[..i];
      customers[idx] := customers[idx].(name := src.name);
      if picks[i].choice.copyEmail {
        customers[idx] := customers[idx].(email := src.email);
      }
      i := i + 1;
    }
    assert picks[..|picks|] == picks;
    forall i | 0 <= i < customers.Length && i !in Covered(PickedRows(picks))
      ensures customers[i] == old(customers[i])
    {
      DuplicatesUntouched(original, picks, i);
    }
  }
}

/**
 The car-wash transaction ledger ("laporan"): an ordered list of service
 records, most recent first, and the operations the app performs on it —
 editing the entry form, submitting a new record, deleting by id and toggling
 a record's payment status. Record ids and today's date are supplied by the
 caller, since the app reads them from the clock.
 */
module Ledger {
  import opened Text
  import opened Seqs

  /** The fixed price table, in rupiah. */
  const HargaFull: int := 50000
  const HargaBody: int := 35000

  /** The two service types: a full wash or a body-only wash. */
  datatype Tipe = Full | Body

  /** A status string other than `paid` and `pending`. */
  type OtherTag = t: string | t != "paid" && t != "pending" witness ""

  /**
   Payment status. The app itself only writes `paid` and `pending`; `Other`
   stands for any other status string a stored record could carry, which the
   status toggle and the totals treat differently from both.
   */
  datatype Status = Paid | Pending | Other(tag: OtherTag)

  /** The status string the app stores for a status. */
  function StatusString(s: Status): string {
    match s
    case Paid => "paid"
    case Pending => "pending"
    case Other(t) => t
  }

  /**
   Every status string has exactly one status, so the app's string comparisons
   `status === 'paid'` and `status === 'pending'` are the tests `Paid` and `Pending`.
   */
  lemma StatusStringInjective(a: Status, b: Status)
    ensures StatusString(a) == StatusString(b) <==> a == b
    ensures StatusString(a) == "paid" <==> a == Paid
    ensures StatusString(a) == "pending" <==> a == Pending
  {
  }

  /** One serviced vehicle: plate, phone, car model and colour, price, service type and payment status. */
  datatype Record = Record(
    id: int,
    date: string,
    plat: string,
    telepon: string,
    mobil: string,
    warna: string,
    harga: int,
    tipe: Tipe,
    status: Status)

  /** The entry form's state. */
  datatype Form = Form(plat: string, telepon: string, mobil: string, warna: string, tipe: Tipe, status: Status)

  /** The form as it starts and as it is reset after a successful submit. */
  const EmptyForm := Form("", "", "", "", Full, Pending)

  /** The form's four text inputs. */
  datatype Field = Plat | Telepon | Mobil | Warna

  function FieldValue(f: Form, name: Field): string {
    match name
    case Plat => f.plat
    case Telepon => f.telepon
    case Mobil => f.mobil
    case Warna => f.warna
  }

  /**
   A change event on one text input. An edit of the phone field that is not
   all digits is ignored; every other edit replaces that field's value.
   */
  function HandleChange(form: Form, name: Field, value: string): (f: Form)
    ensures name == Telepon && !AllDigits(value) ==> f == form
    ensures name != Telepon || AllDigits(value) ==> FieldValue(f, name) == value
    ensures forall other: Field :: other != name ==> FieldValue(f, other) == FieldValue(form, other)
    ensures f.tipe == form.tipe && f.status == form.status
    ensures AllDigits(form.telepon) ==> AllDigits(f.telepon)
  {
    if name == Telepon && !AllDigits(value) then form
    else
      match name
      case Plat => form.(plat := value)
      case Telepon => form.(telepon := value)
      case Mobil => form.(mobil := value)
      case Warna => form.(warna := value)
  }

  /** The price a new record gets for its service type. */
  function Price(tipe: Tipe): (harga: int)
    ensures tipe == Full ==> harga == 50000
    ensures tipe == Body ==> harga == 35000
  {
    if tipe == Full then HargaFull else HargaBody
  }

  /** A submit goes through only when both the plate and the car model are filled in. */
  predicate Accepts(form: Form) {
    form.plat != "" && form.mobil != ""
  }

  /** The record a submit creates from the form. */
  function NewRecord(form: Form, id: int, today: string): Record {
    Record(id, today, ToUpper(form.plat), form.telepon, form.mobil, form.warna, Price(form.tipe), form.tipe, form.status)
  }

  /**
   Submitting the form: with the plate or the car model empty nothing happens;
   otherwise a record priced from the table, with the plate upper-cased, goes
   in front of the existing ones and the form is cleared.
   */
  function Submit(laporan: seq<Record>, form: Form, id: int, today: string): (r: (seq<Record>, Form))
    ensures !Accepts(form) ==> r == (laporan, form)
    ensures Accepts(form) ==> |r.0| == |laporan| + 1 && r.0[1..] == laporan && r.1 == EmptyForm
    ensures Accepts(form) ==> r.0[0].id == id && r.0[0].date == today
    ensures Accepts(form) ==> r.0[0].harga == (if form.tipe == Full then 50000 else 35000)
    ensures Accepts(form) ==> r.0[0].tipe == form.tipe && r.0[0].status == form.status
    ensures Accepts(form) ==>
      r.0[0].telepon == form.telepon && r.0[0].mobil == form.mobil && r.0[0].warna == form.warna
    ensures Accepts(form) ==> |r.0[0].plat| == |form.plat| && r.0[0].plat == ToUpper(form.plat)
  {
    if !Accepts(form) then (laporan, form)
    else ([NewRecord(form, id, today)] + laporan, EmptyForm)
  }

  /** Keeps the records whose id differs from `id`. */
  function IdIsNot(id: int): Record -> bool {
    (x: Record) => x.id != id
  }

  /**
   Deleting (after the user confirms): every record with that id goes, every
   other record stays, once each, in the original order.
   */
  function Delete(laporan: seq<Record>, id: int): (r: seq<Record>)
    ensures forall x :: x in r <==> x in laporan && x.id != id
    ensures forall x :: multiset(r)[x] == if x.id != id then multiset(laporan)[x] else 0
    ensures IsSubsequence(r, laporan)
    ensures |r| <= |laporan|
    ensures (forall x :: x in laporan ==> x.id != id) ==> r == laporan
  {
    FilterIsSubsequence(IdIsNot(id), laporan);
    FilterKeepsAll(IdIsNot(id), laporan);
    Filter(IdIsNot(id), laporan)
  }

  /** The status toggle of one record: `paid` becomes `pending`, anything else becomes `paid`. */
  function Flip(s: Status): (t: Status)
    ensures t == Paid || t == Pending
    ensures t == Pending <==> s == Paid
  {
    if s == Paid then Pending else Paid
  }

  function ToggleOne(x: Record, id: int): Record {
    if x.id == id then x.(status := Flip(x.status)) else x
  }

  /**
   Toggling the payment status of the records with id `id`. Only their status
   changes; every other record and every other field stays as it was.
   */
  function ToggleStatus(laporan: seq<Record>, id: int): (r: seq<Record>)
    ensures |r| == |laporan|
    ensures forall k :: 0 <= k < |r| ==> r[k] == laporan[k].(status := r[k].status)
    ensures forall k :: 0 <= k < |r| && laporan[k].id != id ==> r[k] == laporan[k]
    ensures forall k :: 0 <= k < |r| && laporan[k].id == id && laporan[k].status == Paid ==> r[k].status == Pending
    ensures forall k :: 0 <= k < |r| && laporan[k].id == id && laporan[k].status != Paid ==> r[k].status == Paid
    ensures (forall x :: x in laporan ==> x.id != id) ==> r == laporan
  {
    if |laporan| == 0 then []
    else [ToggleOne(laporan[0], id)] + ToggleStatus(laporan[1..], id)
  }

  /** Toggling twice restores every record whose status was `paid` or `pending`. */
  lemma ToggleTwice(laporan: seq<Record>, id: int)
    requires forall x :: x in laporan && x.id == id ==> x.status == Paid || x.status == Pending
    ensures ToggleStatus(ToggleStatus(laporan, id), id) == laporan
  {
    var once := ToggleStatus(laporan, id);
    var twice := ToggleStatus(once, id);
    forall k | 0 <= k < |laporan|
      ensures twice[k] == laporan[k]
    {
      if laporan[k].id == id {
        assert laporan[k] in laporan;
      }
    }
  }

  /**
   A record as the app itself creates it: priced from the table, `paid` or
   `pending`, plate and car model filled in, plate upper-case, phone all digits.
   */
  predicate WellFormed(x: Record) {
    && x.harga == Price(x.tipe)
    && (x.status == Paid || x.status == Pending)
    && x.plat != "" && x.mobil != ""
    && (forall i :: 0 <= i < |x.plat| ==> !IsLowerAscii(x.plat[i]))
    && AllDigits(x.telepon)
  }

  predicate AllWellFormed(laporan: seq<Record>) {
    forall x :: x in laporan ==> WellFormed(x)
  }

  /** The form as the inputs leave it: digits-only phone, `paid` or `pending`. */
  predicate FormWellFormed(f: Form) {
    AllDigits(f.telepon) && (f.status == Paid || f.status == Pending)
  }

  /** The empty form is well formed and every change event keeps the form well formed. */
  lemma FormStaysWellFormed(form: Form, name: Field, value: string)
    requires FormWellFormed(form)
    ensures FormWellFormed(EmptyForm)
    ensures FormWellFormed(HandleChange(form, name, value))
  {
  }

  /** Submit, delete and toggle keep a ledger of well-formed records well formed. */
  lemma LedgerStaysWellFormed(laporan: seq<Record>, form: Form, id: int, today: string)
    requires AllWellFormed(laporan)
    requires FormWellFormed(form)
    ensures AllWellFormed(Submit(laporan, form, id, today).0)
    ensures FormWellFormed(Submit(laporan, form, id, today).1)
    ensures AllWellFormed(Delete(laporan, id))
    ensures AllWellFormed(ToggleStatus(laporan, id))
  {
    var t := ToggleStatus(laporan, id);
    forall x | x in t
      ensures WellFormed(x)
    {
      var k :| 0 <= k < |t| && t[k] == x;
      assert laporan[k] in laporan;
    }
    var s := Submit(laporan, form, id, today).0;
    if Accepts(form) {
      forall x | x in s
        ensures WellFormed(x)
      {
        var k :| 0 <= k < |s| && s[k] == x;
        if k > 0 {
          assert s[k] == laporan[k - 1];
        }
      }
    }
  }
}

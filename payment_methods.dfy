/** The mobile PaymentMethodsScreen: saved cards and PayPal accounts, one
    of them the default. Set-default works as for addresses; delete first
    looks the id up and refuses (with an alert) when that method is the
    default. */
module PaymentMethods {
  import opened Seqs

  datatype MethodType = Card | PayPal

  datatype PaymentMethod = PaymentMethod(
    id: string,
    kind: MethodType,
    name: string,
    details: string,
    isDefault: bool,
    expiryDate: Option<string>)

  /** The three methods the screen starts from; the Visa card is the
      default. */
  function SampleMethods(): seq<PaymentMethod>
  {
    [ PaymentMethod("1", Card, "Visa ending in 4242", "••••••••••••4242", true, Some("12/25")),
      PaymentMethod("2", Card, "Mastercard ending in 5555", "••••••••••••5555", false, Some("08/24")),
      PaymentMethod("3", PayPal, "PayPal", "user@example.com", false, None) ]
  }

  predicate UniqueIds(methods: seq<PaymentMethod>)
  {
    forall i, j :: 0 <= i < j < |methods| ==> methods[i].id != methods[j].id
  }

  predicate IsDefault(m: PaymentMethod)
  {
    m.isDefault
  }

  function DefaultCount(methods: seq<PaymentMethod>): nat
  {
    Count(methods, IsDefault)
  }

  /** The updater of `handleSetDefault`. */
  function WithDefault(methods: seq<PaymentMethod>, id: string): seq<PaymentMethod>
  {
    seq(|methods|, i requires 0 <= i < |methods| => methods[i].(isDefault := methods[i].id == id))
  }

  /** `paymentMethods.find((method) => method.id === id)`. */
  function FindById(methods: seq<PaymentMethod>, id: string): Option<PaymentMethod>
  {
    match FindIndex(methods, (m: PaymentMethod) => m.id == id)
    case None => None
    case Some(k) => Some(methods[k])
  }

  /** The guard of `handleDeletePaymentMethod`: the method found is the
      default. An unknown id finds nothing, and `undefined` is falsy. */
  predicate DeleteRefused(methods: seq<PaymentMethod>, id: string)
  {
    FindById(methods, id).Some? && FindById(methods, id).value.isDefault
  }

  /** The list after `handleDeletePaymentMethod`. */
  function AfterDelete(methods: seq<PaymentMethod>, id: string): seq<PaymentMethod>
  {
    if DeleteRefused(methods, id) then methods
    else Filter(methods, (m: PaymentMethod) => m.id != id)
  }

  /** Set-default marks exactly the methods with that id, changes no other
      field, and with unique ids leaves exactly one default when the id is
      present. */
  lemma SetDefaultMarks(methods: seq<PaymentMethod>, id: string)
    ensures |WithDefault(methods, id)| == |methods|
    ensures forall k :: 0 <= k < |methods| ==> (WithDefault(methods, id)[k].isDefault <==> methods[k].id == id)
    ensures forall k :: 0 <= k < |methods|
              ==> WithDefault(methods, id)[k] == methods[k].(isDefault := WithDefault(methods, id)[k].isDefault)
    ensures UniqueIds(methods) && (exists k :: 0 <= k < |methods| && methods[k].id == id)
            ==> DefaultCount(WithDefault(methods, id)) == 1
  {
    if UniqueIds(methods) && exists k :: 0 <= k < |methods| && methods[k].id == id {
      var k :| 0 <= k < |methods| && methods[k].id == id;
      CountSingle(WithDefault(methods, id), IsDefault, k);
    }
  }

  /** With unique ids, looking up a present id finds that very method. */
  lemma FindPresent(methods: seq<PaymentMethod>, k: int)
    requires UniqueIds(methods) && 0 <= k < |methods|
    ensures FindById(methods, methods[k].id) == Some(methods[k])
  {
  }

  /** Deleting the default method is refused and leaves the list as it was. */
  lemma DeleteDefaultRefused(methods: seq<PaymentMethod>, k: int)
    requires UniqueIds(methods) && 0 <= k < |methods| && methods[k].isDefault
    ensures DeleteRefused(methods, methods[k].id)
    ensures AfterDelete(methods, methods[k].id) == methods
  {
    FindPresent(methods, k);
  }

  /** Deleting a method that is not the default removes exactly it and
      keeps the rest in order. */
  lemma DeleteNonDefault(methods: seq<PaymentMethod>, k: int)
    requires UniqueIds(methods) && 0 <= k < |methods| && !methods[k].isDefault
    ensures !DeleteRefused(methods, methods[k].id)
    ensures AfterDelete(methods, methods[k].id) == methods[..k] + methods[k + 1..]
  {
    FindPresent(methods, k);
    var keep := (m: PaymentMethod) => m.id != methods[k].id;
    var pre, post := methods[..k], methods[k + 1..];
    assert methods == pre + [methods[k]] + post;
    assert forall j :: 0 <= j < |pre| ==> pre[j] == methods[j];
    assert forall j :: 0 <= j < |post| ==> post[j] == methods[k + 1 + j];
    FilterDropsOne(pre, methods[k], post, keep);
  }

  /** Deleting an unknown id changes nothing. */
  lemma DeleteUnknown(methods: seq<PaymentMethod>, id: string)
    requires forall k :: 0 <= k < |methods| ==> methods[k].id != id
    ensures AfterDelete(methods, id) == methods
  {
    FilterKeepsAll(methods, (m: PaymentMethod) => m.id != id);
  }

  /** With unique ids, delete never changes how many methods are default:
      a default is never removed. So "exactly one default" is kept. */
  lemma DeleteKeepsDefaults(methods: seq<PaymentMethod>, id: string)
    requires UniqueIds(methods)
    ensures DefaultCount(AfterDelete(methods, id)) == DefaultCount(methods)
  {
    if !DeleteRefused(methods, id) {
      var keep := (m: PaymentMethod) => m.id != id;
      forall x | x in methods && !keep(x) ensures !IsDefault(x) {
        var j :| 0 <= j < |methods| && methods[j] == x;
        FindPresent(methods, j);
      }
      CountFilterDropsNone(methods, keep, IsDefault);
    }
  }

  /** The screen's `paymentMethods` state cell. */
  class PaymentMethodsScreen {
    var paymentMethods: seq<PaymentMethod>

    ghost predicate Valid()
      reads this
    {
      UniqueIds(paymentMethods)
    }

    constructor ()
      ensures Valid() && paymentMethods == SampleMethods()
    {
      paymentMethods := SampleMethods();
    }

    method HandleSetDefault(id: string)
      requires Valid()
      modifies this
      ensures Valid()
      ensures paymentMethods == WithDefault(old(paymentMethods), id)
    {
      paymentMethods := WithDefault(paymentMethods, id);
    }

    /** `handleDeletePaymentMethod`; `refused` stands for the "Cannot
        Delete Default" alert. */
    method HandleDeletePaymentMethod(id: string) returns (refused: bool)
      requires Valid()
      modifies this
      ensures Valid()
      ensures refused == DeleteRefused(old(paymentMethods), id)
      ensures paymentMethods == AfterDelete(old(paymentMethods), id)
      ensures DefaultCount(paymentMethods) == DefaultCount(old(paymentMethods))
    {
      DeleteKeepsDefaults(paymentMethods, id);
      var found := FindById(paymentMethods, id);
      if found.Some? && found.value.isDefault {
        return true;
      }
      refused := false;
      FilterKeepsPairwise(paymentMethods, (m: PaymentMethod) => m.id != id,
                          (a: PaymentMethod, b: PaymentMethod) => a.id != b.id);
      paymentMethods := Filter(paymentMethods, (m: PaymentMethod) => m.id != id);
    }
  }
}

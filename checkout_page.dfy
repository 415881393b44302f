/**
 * The checkout page component: its form, errors, processing flag, the cart
 * it reads from the cart context, and what submitting does to them and to
 * local storage, in the order `handleSubmit` performs its steps.
 */
module CheckoutPage {
  import opened JsText
  import opened Records
  import opened LocalStore
  import opened Payment
  import PaymentServer

  /** The part of the page and of storage that processing starts from. */
  datatype PageSnapshot = PageSnapshot(form: PaymentForm, cart: seq<CartItem>, trace: seq<Step>,
                                       redirect: Option<Redirect>,
                                       orderLists: map<string, seq<StoredOrder>>,
                                       lastOrder: Option<StoredOrder>)

  class Checkout {
    var form: PaymentForm
    var errors: map<ErrorKey, string>
    var processing: bool
    /** The cart, as the cart context holds it. */
    var cart: seq<CartItem>
    var trace: seq<Step>
    var redirect: Option<Redirect>
    const user: Option<User>
    const store: LocalStorage

    /** The card fields always hold what their formatters store. */
    predicate Valid()
      reads this`form
    {
      FieldsAsStored(form)
    }

    constructor (user: Option<User>, cart: seq<CartItem>, store: LocalStorage)
      ensures Valid()
      ensures form == InitialForm && errors == map[] && !processing
      ensures this.cart == cart && trace == [] && redirect.None?
      ensures this.user == user && this.store == store
    {
      this.form := InitialForm;
      this.errors := map[];
      this.processing := false;
      this.cart := cart;
      this.trace := [];
      this.redirect := None;
      this.user := user;
      this.store := store;
      InitialFormStored();
    }

    /** `handleInputChange`, with the error of the edited field cleared. */
    method InputChange(name: string, value: string)
      requires Valid()
      modifies this
      ensures Valid()
      ensures form == FormAfterInput(old(form), name, value)
      ensures errors == ClearFieldError(old(errors), name)
      ensures processing == old(processing) && cart == old(cart)
      ensures trace == old(trace) && redirect == old(redirect)
    {
      var updated := FormAfterInput(form, name, value);
      InputKeepsFieldsAsStored(form, name, value);
      errors := ClearFieldError(errors, name);
      form := updated;
    }

    /**
     * `handleSubmit`. A form with validation errors (one that is not
     * `FormIsValid`, by `ValidIffNoErrors`) only shows them; a valid one is
     * processed by `ProcessPayment`. The form is left as it was, so `Valid()`
     * (which reads only the form) still holds afterwards.
     */
    method HandleSubmit(subtotal: real, backend: Option<PaymentServer.Response>,
                        randomId: string, nowMs: nat, fault: SaveFault)
      modifies this, store
      ensures form == old(form)
      ensures ValidationErrors(old(form)) != map[] ==>
        errors == ValidationErrors(old(form)) && processing == old(processing)
        && cart == old(cart) && trace == old(trace) && redirect == old(redirect)
        && store.orderLists == old(store.orderLists) && store.lastOrder == old(store.lastOrder)
      ensures ValidationErrors(old(form)) == map[] ==>
        Processed(old(Snapshot()), subtotal, backend, randomId, nowMs, fault)
    {
      ghost var before := Snapshot();
      var newErrors, valid := ValidateForm(form);
      errors := newErrors;
      assert Snapshot() == before;
      if !valid {
        return;
      }
      ProcessPayment(subtotal, backend, randomId, nowMs, fault);
    }

    /** What processing reads of the page and of storage before it starts. */
    function Snapshot(): PageSnapshot
      reads this`form, this`cart, this`trace, this`redirect, store`orderLists, store`lastOrder
    {
      PageSnapshot(form, cart, trace, redirect, store.orderLists, store.lastOrder)
    }

    /**
     * What processing a valid form leaves behind, starting from `before`. On
     * success: the payment requested, the order saved (`lastOrder` and the
     * front of the owner's list), and only then the cart cleared and the
     * redirect scheduled. On a storage failure: its mapped message, the cart
     * kept, and whatever was written before the failure. Processing has
     * ended in both cases.
     */
    predicate Processed(before: PageSnapshot, subtotal: real, backend: Option<PaymentServer.Response>,
                        randomId: string, nowMs: nat, fault: SaveFault)
      reads this, store
    {
      var cents := AmountInCents(CheckoutTotals(subtotal).total);
      var id := IntentId(backend, randomId);
      var record := CheckoutRecord(id, cents, before.cart, before.form, nowMs, user, subtotal);
      var key := OrdersKey(StorageUserId(user));
      var previous := if key in before.orderLists then before.orderLists[key] else [];
      !processing && form == before.form
      && (fault.NoFault? ==>
        trace == before.trace + [ProcessingStarted, PaymentRequested(cents), OrderSaved(id),
                                 CartCleared, RedirectScheduled(id), ProcessingEnded]
        && cart == [] && errors == map[SubmitError := ""]
        && redirect == Some(Redirect(id, CheckoutTotals(subtotal).total, SuccessMessage(id)))
        && store.lastOrder == Some(record)
        && store.orderLists == before.orderLists[key := [record] + previous])
      && (!fault.NoFault? ==>
        trace == before.trace + [ProcessingStarted, PaymentRequested(cents), ProcessingEnded]
        && cart == before.cart && errors == map[SubmitError := SubmitMessage(fault.message)]
        && redirect == before.redirect && store.orderLists == before.orderLists
        && store.lastOrder == (if fault.FailsWritingOrderList? then Some(record) else before.lastOrder))
    }

    /** The `try`/`catch`/`finally` of `handleSubmit`, after validation succeeded. */
    method ProcessPayment(subtotal: real, backend: Option<PaymentServer.Response>,
                          randomId: string, nowMs: nat, fault: SaveFault)
      modifies this, store
      ensures Processed(old(Snapshot()), subtotal, backend, randomId, nowMs, fault)
    {
      processing := true;
      var cents := AmountInCents(CheckoutTotals(subtotal).total);
      var steps := [ProcessingStarted, PaymentRequested(cents)];
      var id := IntentId(backend, randomId);
      var record := CheckoutRecord(id, cents, cart, form, nowMs, user, subtotal);
      var failure := SaveCheckoutOrder(store, record, StorageUserId(user), fault);
      if failure.None? {
        steps := steps + [OrderSaved(id)];
        cart := [];
        steps := steps + [CartCleared];
        errors := map[SubmitError := ""];
        redirect := Some(Redirect(id, CheckoutTotals(subtotal).total, SuccessMessage(id)));
        steps := steps + [RedirectScheduled(id)];
      } else {
        errors := map[SubmitError := SubmitMessage(failure.value)];
      }
      processing := false;
      trace := trace + steps + [ProcessingEnded];
    }
  }
}

/**
 * The saved-payment-methods page: it lists the signed-in user's rows of `payment_methods`
 * default-first, re-flags and deletes them. Its "add" panel only shows a note and writes nothing.
 */
module PaymentMethods {
  import opened Wrappers
  import opened OwnedRows

  /** The columns of a saved payment method other than its id, owner and default flag. */
  datatype Method = Method(methodType: string, provider: string, lastFour: string, createdAt: string)

  type MethodRow = Row<Method>

  class PaymentMethodList {
    /** The `payment_methods` table. */
    var table: seq<MethodRow>
    /** The profile the `users` table holds for the signed-in user, if any. */
    const account: Option<Id>
    /** The profile as last fetched (`userProfile`). */
    var profile: Option<Id>
    /** The list on screen. */
    var methods: seq<MethodRow>
    var loading: bool
    var showAddForm: bool

    ghost predicate Valid()
      reads this
    {
      UniqueIds(table) && (profile.None? || profile == account)
    }

    constructor(table: seq<MethodRow>, account: Option<Id>)
      requires UniqueIds(table)
      ensures Valid()
      ensures this.table == table && this.account == account
      ensures profile.None? && methods == [] && loading && !showAddForm
    {
      this.table := table;
      this.account := account;
      profile := None;
      methods := [];
      loading := true;
      showAddForm := false;
    }

    /** `fetchUserAndPaymentMethods`: load the profile, then its methods default-first. */
    method Fetch()
      requires Valid()
      modifies this
      ensures Valid()
      ensures table == old(table) && showAddForm == old(showAddForm)
      ensures profile == account && !loading
      ensures account.Some? ==> methods == Listing(table, account.value)
      ensures account.None? ==> methods == old(methods)
    {
      profile := account;
      if account.Some? {
        methods := Listing(table, account.value);
      }
      loading := false;
    }

    /** `handleSetDefault`: clear the flag on all of the profile's methods, then flag the chosen one
        and refetch. The clearing step's result is not looked at; a refused flagging step skips the
        refetch. */
    method SetDefault(id: Id, clearOk: bool, markOk: bool)
      requires Valid()
      modifies this
      ensures Valid()
      ensures old(profile).None? ==> unchanged(this)
      ensures old(profile).Some? ==>
        var cleared := if clearOk then ClearDefaults(old(table), old(profile).value) else old(table);
        table == (if markOk then MarkDefault(cleared, id) else cleared)
      ensures old(profile).Some? && clearOk && markOk ==>
        && (forall k :: 0 <= k < |table| && old(table)[k].id == id && old(table)[k].userId == old(profile).value ==>
              table[k].isDefault && OneDefault(table, old(profile).value))
        && methods == Listing(table, old(profile).value)
      ensures old(profile).Some? && markOk ==>
        profile == account && !loading && methods == Listing(table, old(profile).value)
      ensures !markOk ==> profile == old(profile) && loading == old(loading) && methods == old(methods)
      ensures showAddForm == old(showAddForm)
    {
      if profile.None? {
        return;
      }
      var owner := profile.value;
      ghost var before := table;
      if clearOk {
        table := ClearDefaults(table, owner);
      }
      if !markOk {
        return;
      }
      table := MarkDefault(table, id);
      if clearOk {
        forall k | 0 <= k < |table| && before[k].id == id && before[k].userId == owner
          ensures table[k].isDefault && OneDefault(table, owner)
        {
          SetDefaultLeavesOnlyChosen(before, owner, k);
        }
      }
      Fetch();
    }

    /** `handleDeleteMethod`: after confirmation, delete the method with that id and refetch. */
    method DeleteMethod(id: Id, confirmed: bool, ok: bool)
      requires Valid()
      modifies this
      ensures Valid()
      ensures !confirmed || !ok ==> unchanged(this)
      ensures confirmed && ok ==>
        && table == DeleteRow(old(table), id)
        && showAddForm == old(showAddForm)
        && profile == account && !loading
        && (account.Some? ==> methods == Listing(table, account.value))
        && (account.None? ==> methods == old(methods))
      ensures forall x :: x in table <==> x in old(table) && (x.id != id || !confirmed || !ok)
    {
      DeleteRemovesOnlyThatRow(table, id);
      if !confirmed || !ok {
        return;
      }
      DeleteKeepsIds(table, id);
      table := DeleteRow(table, id);
      Fetch();
    }

    /** The "Add Payment Method" buttons and the panel's Cancel: they only show or hide the note. */
    method SetAddPanel(open: bool)
      modifies this
      ensures showAddForm == open
      ensures table == old(table) && methods == old(methods) && profile == old(profile) && loading == old(loading)
    {
      showAddForm := open;
    }
  }
}

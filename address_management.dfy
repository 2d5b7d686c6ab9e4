/**
 * The saved-addresses page: it lists the signed-in user's rows of `user_addresses` default-first and
 * adds, edits, deletes and re-flags them. Every successful write is followed by a fresh fetch.
 */
module AddressManagement {
  import opened Wrappers
  import opened OwnedRows
  import opened AddressForm

  type AddressRow = Row<Address>

  class AddressBook {
    /** The `user_addresses` table. */
    var table: seq<AddressRow>
    /** The row store's id counter for that table. */
    var nextId: nat
    /** The profile the `users` table holds for the signed-in user, if any. */
    const account: Option<Id>
    /** The profile as last fetched (`userProfile`). */
    var profile: Option<Id>
    /** The list on screen. */
    var addresses: seq<AddressRow>
    var loading: bool
    var showAddForm: bool
    var editing: Option<AddressRow>

    ghost predicate Valid()
      reads this
    {
      UniqueIds(table) && IdsBelow(table, nextId) && (profile.None? || profile == account)
    }

    constructor(table: seq<AddressRow>, nextId: nat, account: Option<Id>)
      requires UniqueIds(table) && IdsBelow(table, nextId)
      ensures Valid()
      ensures this.table == table && this.nextId == nextId && this.account == account
      ensures profile.None? && addresses == [] && loading && !showAddForm && editing.None?
    {
      this.table := table;
      this.nextId := nextId;
      this.account := account;
      profile := None;
      addresses := [];
      loading := true;
      showAddForm := false;
      editing := None;
    }

    /** `fetchUserAndAddresses`: load the profile, then its addresses default-first. */
    method Fetch()
      requires Valid()
      modifies this
      ensures Valid()
      ensures table == old(table) && nextId == old(nextId)
      ensures showAddForm == old(showAddForm) && editing == old(editing)
      ensures profile == account && !loading
      ensures account.Some? ==> addresses == Listing(table, account.value)
      ensures account.None? ==> addresses == old(addresses)
    {
      profile := account;
      if account.Some? {
        addresses := Listing(table, account.value);
      }
      loading := false;
    }

    /** `handleAddAddress`: insert the form's address for the loaded profile, whatever owner the form
        names, close the form and refetch. Nothing happens without a profile; a refused insert
        (`ok` false) changes nothing. */
    method AddAddress(form: FormData, ok: bool)
      requires Valid()
      modifies this
      ensures Valid()
      ensures old(profile).None? || !ok ==> unchanged(this)
      ensures old(profile).Some? && ok ==>
        && table == InsertRow(old(table), old(nextId), old(profile).value, form.isDefault, form.address)
        && table[|old(table)|].userId == old(profile).value
        && nextId == old(nextId) + 1
        && !showAddForm
        && addresses == Listing(table, old(profile).value)
    {
      if profile.None? || !ok {
        return;
      }
      table := InsertRow(table, nextId, profile.value, form.isDefault, form.address);
      nextId := nextId + 1;
      showAddForm := false;
      Fetch();
    }

    /** `handleUpdateAddress`: overwrite the row with that id with the form's columns and flag, close
        the editor and refetch; a refused update changes nothing. */
    method UpdateAddress(id: Id, form: FormData, ok: bool)
      requires Valid()
      modifies this
      ensures Valid()
      ensures !ok ==> unchanged(this)
      ensures ok ==>
        && table == UpdateRow(old(table), id, form.isDefault, form.address)
        && editing.None? && showAddForm == old(showAddForm)
        && nextId == old(nextId)
        && profile == account && !loading
        && (account.Some? ==> addresses == Listing(table, account.value))
        && (account.None? ==> addresses == old(addresses))
    {
      if !ok {
        return;
      }
      table := UpdateRow(table, id, form.isDefault, form.address);
      editing := None;
      Fetch();
    }

    /** `handleDeleteAddress`: after confirmation, delete the row with that id and refetch. */
    method DeleteAddress(id: Id, confirmed: bool, ok: bool)
      requires Valid()
      modifies this
      ensures Valid()
      ensures !confirmed || !ok ==> unchanged(this)
      ensures confirmed && ok ==>
        && table == DeleteRow(old(table), id) && nextId == old(nextId)
        && showAddForm == old(showAddForm) && editing == old(editing)
        && profile == account && !loading
        && (account.Some? ==> addresses == Listing(table, account.value))
        && (account.None? ==> addresses == old(addresses))
      ensures forall x :: x in table <==> x in old(table) && (x.id != id || !confirmed || !ok)
    {
      DeleteRemovesOnlyThatRow(table, id);
      if !confirmed || !ok {
        return;
      }
      DeleteKeepsIds(table, id);
      DeleteKeepsBound(table, id, nextId);
      table := DeleteRow(table, id);
      Fetch();
    }

    /** `handleSetDefault`: clear the flag on all of the profile's rows, then flag the chosen row and
        refetch. The result of the clearing step is not looked at (`clearOk` false leaves the flags);
        a refused flagging step (`markOk` false) skips the refetch. */
    method SetDefault(id: Id, clearOk: bool, markOk: bool)
      requires Valid()
      modifies this
      ensures Valid()
      ensures old(profile).None? ==> unchanged(this)
      ensures old(profile).Some? ==>
        var cleared := if clearOk then ClearDefaults(old(table), old(profile).value) else old(table);
        table == (if markOk then MarkDefault(cleared, id) else cleared)
      ensures old(profile).Some? && clearOk && markOk ==>
        forall k :: 0 <= k < |table| && old(table)[k].id == id && old(table)[k].userId == old(profile).value ==>
          table[k].isDefault && OneDefault(table, old(profile).value)
      ensures old(profile).Some? && markOk ==>
        profile == account && !loading && addresses == Listing(table, old(profile).value)
      ensures !markOk ==> profile == old(profile) && loading == old(loading) && addresses == old(addresses)
      ensures nextId == old(nextId) && showAddForm == old(showAddForm) && editing == old(editing)
    {
      if profile.None? {
        return;
      }
      var owner := profile.value;
      ghost var before := table;
      if clearOk {
        table := ClearDefaults(table, owner);
      }
      if !markOk {
        return;
      }
      table := MarkDefault(table, id);
      if clearOk {
        forall k | 0 <= k < |table| && before[k].id == id && before[k].userId == owner
          ensures table[k].isDefault && OneDefault(table, owner)
        {
          SetDefaultLeavesOnlyChosen(before, owner, k);
        }
      }
      Fetch();
    }
  }
}

/**
 * The client's user store: the signed-in user, their address list and the
 * authentication flag, with the actions that replace them. Persistence to
 * the browser is not part of the model.
 */
module UserStore {
  import opened Wrappers
  import opened Seqs
  import opened Users

  function IdIsNot(id: string): Address -> bool {
    (a: Address) => a.id != id
  }

  /** `addresses.map(addr => addr.id === id ? { ...addr, ...data } : addr)`. */
  function AddressesUpdated(addresses: seq<Address>, id: string, data: AddressPatch): (r: seq<Address>)
    ensures |r| == |addresses|
    ensures forall i :: 0 <= i < |r| && addresses[i].id != id ==> r[i] == addresses[i]
    ensures forall i :: 0 <= i < |r| && addresses[i].id == id ==> r[i] == MergeAddress(addresses[i], data)
  {
    seq(|addresses|, i requires 0 <= i < |addresses| =>
          if addresses[i].id == id then MergeAddress(addresses[i], data) else addresses[i])
  }

  /** `addresses.filter(addr => addr.id !== id)`: every address with the id goes, the others stay in order. */
  function AddressesWithout(addresses: seq<Address>, id: string): (r: seq<Address>)
    ensures forall a :: a in r <==> a in addresses && a.id != id
    ensures forall a :: multiset(r)[a] == if a.id != id then multiset(addresses)[a] else 0
    ensures |r| <= |addresses|
  {
    FilterContains(addresses, IdIsNot(id));
    FilterCounts(addresses, IdIsNot(id));
    Filter(addresses, IdIsNot(id))
  }

  /**
   * `addresses.map(addr => ({ ...addr, isDefault: addr.id === id }))`: the
   * addresses with the id become the default, every other one stops being
   * it, whichever user it belongs to.
   */
  function DefaultAddressSet(addresses: seq<Address>, id: string): (r: seq<Address>)
    ensures |r| == |addresses|
    ensures forall i :: 0 <= i < |r| ==> (r[i].isDefault <==> addresses[i].id == id)
    ensures forall i :: 0 <= i < |r| ==> r[i] == addresses[i].(isDefault := r[i].isDefault)
  {
    seq(|addresses|, i requires 0 <= i < |addresses| => addresses[i].(isDefault := addresses[i].id == id))
  }

  /**
   * When the list holds one user's addresses only, the store's toggle
   * agrees with the repository's `setDefault` for that user.
   */
  lemma StoreDefaultMatchesRepository(addresses: seq<Address>, userId: string, id: string)
    requires forall i :: 0 <= i < |addresses| ==> addresses[i].userId == userId
    ensures DefaultAddressSet(addresses, id) == DefaultSet(addresses, userId, id)
  {
    var a := DefaultAddressSet(addresses, id);
    var b := DefaultSet(addresses, userId, id);
    forall i | 0 <= i < |a| ensures a[i] == b[i] {
    }
  }

  /**
   * Removing and re-adding: after `removeAddress(id)` no address has the
   * id, and removing it again changes nothing.
   */
  lemma RemoveAddressSpec(addresses: seq<Address>, id: string)
    ensures forall a :: a in AddressesWithout(addresses, id) ==> a.id != id
    ensures AddressesWithout(AddressesWithout(addresses, id), id) == AddressesWithout(addresses, id)
  {
    FilterKeepsAll(AddressesWithout(addresses, id), IdIsNot(id));
  }

  class Store {
    var user: Option<User>
    var addresses: seq<Address>
    var isAuthenticated: bool
    var isLoading: bool

    /** The flag says whether a user is set. */
    ghost predicate Valid()
      reads this
    {
      isAuthenticated <==> user.Some?
    }

    /** The initial state: nobody signed in, no addresses. */
    constructor ()
      ensures user.None? && addresses == [] && !isAuthenticated && !isLoading
      ensures Valid()
    {
      user := None;
      addresses := [];
      isAuthenticated := false;
      isLoading := false;
    }

    /** `setUser`: the user, and the flag set exactly when there is one. */
    method SetUser(u: Option<User>)
      modifies this
      ensures user == u && isAuthenticated == u.Some?
      ensures addresses == old(addresses) && isLoading == old(isLoading)
      ensures Valid()
    {
      user := u;
      isAuthenticated := u.Some?;
    }

    /** `setAddresses`. */
    method SetAddresses(list: seq<Address>)
      modifies this
      ensures addresses == list
      ensures user == old(user) && isAuthenticated == old(isAuthenticated) && isLoading == old(isLoading)
      ensures old(Valid()) ==> Valid()
    {
      addresses := list;
    }

    /** `login`: the user, signed in. */
    method Login(u: User)
      modifies this
      ensures user == Some(u) && isAuthenticated
      ensures addresses == old(addresses) && isLoading == old(isLoading)
      ensures Valid()
    {
      user := Some(u);
      isAuthenticated := true;
    }

    /** `logout`: no user, no addresses, signed out. */
    method Logout()
      modifies this
      ensures user.None? && addresses == [] && !isAuthenticated
      ensures isLoading == old(isLoading)
      ensures Valid()
    {
      user := None;
      addresses := [];
      isAuthenticated := false;
    }

    /** `updateProfile`: the fields merged into the user; nothing happens when nobody is signed in. */
    method UpdateProfile(data: UserPatch)
      modifies this
      ensures old(user).None? ==> user.None?
      ensures old(user).Some? ==> user == Some(MergeUser(old(user).value, data))
      ensures addresses == old(addresses) && isAuthenticated == old(isAuthenticated) && isLoading == old(isLoading)
      ensures old(Valid()) ==> Valid()
    {
      if user.Some? {
        user := Some(MergeUser(user.value, data));
      }
    }

    /** `addAddress`: the address appended. */
    method AddAddress(address: Address)
      modifies this
      ensures addresses == old(addresses) + [address]
      ensures user == old(user) && isAuthenticated == old(isAuthenticated) && isLoading == old(isLoading)
      ensures old(Valid()) ==> Valid()
    {
      addresses := addresses + [address];
    }

    /** `updateAddress`: the fields merged into every address with the id. */
    method UpdateAddress(id: string, data: AddressPatch)
      modifies this
      ensures addresses == AddressesUpdated(old(addresses), id, data)
      ensures user == old(user) && isAuthenticated == old(isAuthenticated) && isLoading == old(isLoading)
      ensures old(Valid()) ==> Valid()
    {
      addresses := AddressesUpdated(addresses, id, data);
    }

    /** `removeAddress`: every address with the id dropped. */
    method RemoveAddress(id: string)
      modifies this
      ensures addresses == AddressesWithout(old(addresses), id)
      ensures user == old(user) && isAuthenticated == old(isAuthenticated) && isLoading == old(isLoading)
      ensures old(Valid()) ==> Valid()
    {
      addresses := AddressesWithout(addresses, id);
    }

    /** `setDefaultAddress`: the default flag set on the addresses with the id and cleared on all others. */
    method SetDefaultAddress(id: string)
      modifies this
      ensures addresses == DefaultAddressSet(old(addresses), id)
      ensures user == old(user) && isAuthenticated == old(isAuthenticated) && isLoading == old(isLoading)
      ensures old(Valid()) ==> Valid()
    {
      addresses := DefaultAddressSet(addresses, id);
    }
  }
}

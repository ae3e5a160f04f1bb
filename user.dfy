/**
 * Users and their delivery addresses: the user and address records, the
 * partial updates the client applies to them, the case-insensitive
 * lookup by email, and the address repository's default toggle.
 */
module Users {
  import opened Wrappers
  import opened Seqs
  import opened Text

  datatype User = User(id: string, email: string, firstName: string, lastName: string,
                       phone: Option<string>, avatar: Option<string>, createdAt: string)

  datatype Address = Address(id: string, userId: string, title: string, fullName: string, phone: string,
                             city: string, street: string, building: string, apartment: Option<string>,
                             postalCode: string, isDefault: bool)

  /**
   * A `Partial<User>`: each field is either absent or given. For the
   * optional fields a given value may itself be `undefined`, which the
   * spread copies like any other.
   */
  datatype UserPatch = UserPatch(id: Option<string>, email: Option<string>, firstName: Option<string>,
                                 lastName: Option<string>, phone: Option<Option<string>>,
                                 avatar: Option<Option<string>>, createdAt: Option<string>)

  /** A `Partial<Address>`. */
  datatype AddressPatch = AddressPatch(id: Option<string>, userId: Option<string>, title: Option<string>,
                                       fullName: Option<string>, phone: Option<string>, city: Option<string>,
                                       street: Option<string>, building: Option<string>,
                                       apartment: Option<Option<string>>, postalCode: Option<string>,
                                       isDefault: Option<bool>)

  const NoUserChange := UserPatch(None, None, None, None, None, None, None)

  const NoAddressChange := AddressPatch(None, None, None, None, None, None, None, None, None, None, None)

  /** `{ ...user, ...data }`: every field the patch gives wins, the others are kept. */
  function MergeUser(user: User, data: UserPatch): User {
    User(data.id.GetOr(user.id), data.email.GetOr(user.email), data.firstName.GetOr(user.firstName),
         data.lastName.GetOr(user.lastName), data.phone.GetOr(user.phone), data.avatar.GetOr(user.avatar),
         data.createdAt.GetOr(user.createdAt))
  }

  /** `{ ...addr, ...data }`. */
  function MergeAddress(addr: Address, data: AddressPatch): Address {
    Address(data.id.GetOr(addr.id), data.userId.GetOr(addr.userId), data.title.GetOr(addr.title),
            data.fullName.GetOr(addr.fullName), data.phone.GetOr(addr.phone), data.city.GetOr(addr.city),
            data.street.GetOr(addr.street), data.building.GetOr(addr.building),
            data.apartment.GetOr(addr.apartment), data.postalCode.GetOr(addr.postalCode),
            data.isDefault.GetOr(addr.isDefault))
  }

  /**
   * Merging an empty patch changes nothing, merging the same patch twice
   * is merging it once, and a given field always ends up with the value
   * the patch gives.
   */
  lemma MergeUserSpec(user: User, data: UserPatch)
    ensures MergeUser(user, NoUserChange) == user
    ensures MergeUser(MergeUser(user, data), data) == MergeUser(user, data)
    ensures var r := MergeUser(user, data);
            && (data.firstName.Some? ==> r.firstName == data.firstName.value)
            && (data.lastName.Some? ==> r.lastName == data.lastName.value)
            && (data.phone.Some? ==> r.phone == data.phone.value)
            && (data.email.None? ==> r.email == user.email)
            && (data.id.None? ==> r.id == user.id)
  {
  }

  lemma MergeAddressSpec(addr: Address, data: AddressPatch)
    ensures MergeAddress(addr, NoAddressChange) == addr
    ensures MergeAddress(MergeAddress(addr, data), data) == MergeAddress(addr, data)
    ensures data.id.None? ==> MergeAddress(addr, data).id == addr.id
    ensures data.isDefault.Some? ==> MergeAddress(addr, data).isDefault == data.isDefault.value
  {
  }

  function UserIs(userId: string): Address -> bool {
    (a: Address) => a.userId == userId
  }

  function DefaultOf(userId: string): Address -> bool {
    (a: Address) => a.userId == userId && a.isDefault
  }

  function AddressIs(userId: string, addressId: string): Address -> bool {
    (a: Address) => a.userId == userId && a.id == addressId
  }

  /** `u.email.toLowerCase() === email.toLowerCase()`. */
  function EmailIs(email: string): User -> bool {
    (u: User) => ToLower(u.email) == ToLower(email)
  }

  // ---------------------------------------------------------------------
  // The repositories

  class UserRepository {
    var data: seq<User>

    /** Starts from the seed users. */
    constructor ()
      ensures data == InitialUsers()
    {
      data := InitialUsers();
    }

    /** `findByEmail`: the first user whose email equals the given one up to case, or null. */
    function FindByEmail(email: string): (r: Option<User>)
      reads this
      ensures r.None? <==> forall j :: 0 <= j < |data| ==> ToLower(data[j].email) != ToLower(email)
      ensures r.Some? ==> ToLower(r.value.email) == ToLower(email) &&
                          exists i :: 0 <= i < |data| && data[i] == r.value &&
                                      forall j :: 0 <= j < i ==> ToLower(data[j].email) != ToLower(email)
    {
      FindFirst(data, EmailIs(email))
    }
  }

  /** The lookup by email is case-insensitive: upper- or lower-casing the query changes nothing. */
  lemma FindByEmailIgnoresCase(repo: UserRepository, email: string)
    ensures repo.FindByEmail(ToLower(email)) == repo.FindByEmail(email)
    ensures repo.FindByEmail(ToUpper(email)) == repo.FindByEmail(email)
  {
    ToLowerIdempotent(email);
    LowerOfUpper(email);
    assert EmailIs(ToLower(email)) == EmailIs(email);
    assert EmailIs(ToUpper(email)) == EmailIs(email);
  }

  /**
   * The addresses after `setDefault(userId, addressId)`: each of the user's
   * addresses is the default exactly when its id is `addressId`, nothing
   * else of it changes, other users' addresses are untouched, and the list
   * keeps its length and order.
   */
  function DefaultSet(data: seq<Address>, userId: string, addressId: string): (r: seq<Address>)
    ensures |r| == |data|
    ensures forall i :: 0 <= i < |r| && r[i].userId == userId ==> (r[i].isDefault <==> r[i].id == addressId)
    ensures forall i :: 0 <= i < |r| ==> r[i] == data[i].(isDefault := r[i].isDefault)
    ensures forall i :: 0 <= i < |r| && data[i].userId != userId ==> r[i] == data[i]
  {
    seq(|data|, i requires 0 <= i < |data| =>
          if data[i].userId == userId then data[i].(isDefault := data[i].id == addressId) else data[i])
  }

  /**
   * After `setDefault(u, a)` u has at most one default address when its
   * address ids are distinct, and none when `a` is not one of them.
   */
  lemma AtMostOneDefault(data: seq<Address>, userId: string, addressId: string)
    requires forall i, j :: 0 <= i < j < |data| && data[i].userId == userId && data[j].userId == userId ==>
               data[i].id != data[j].id
    ensures var r := DefaultSet(data, userId, addressId);
            forall i, j :: 0 <= i < j < |r| && r[i].userId == userId && r[j].userId == userId ==>
              !(r[i].isDefault && r[j].isDefault)
    ensures (forall i :: 0 <= i < |data| && data[i].userId == userId ==> data[i].id != addressId) ==>
            forall i :: 0 <= i < |data| && DefaultSet(data, userId, addressId)[i].userId == userId ==>
              !DefaultSet(data, userId, addressId)[i].isDefault
  {
  }

  class AddressRepository {
    var data: seq<Address>

    /** Starts from the seed addresses. */
    constructor ()
      ensures data == InitialAddresses()
    {
      data := InitialAddresses();
    }

    /** `findByUserId`: the user's addresses, in stored order. */
    function FindByUserId(userId: string): (r: seq<Address>)
      reads this
      ensures forall a :: a in r <==> a in data && a.userId == userId
      ensures forall a :: multiset(r)[a] == if a.userId == userId then multiset(data)[a] else 0
    {
      FilterContains(data, UserIs(userId));
      FilterCounts(data, UserIs(userId));
      Filter(data, UserIs(userId))
    }

    /** `findDefaultByUserId`: the user's first default address, or null. */
    function FindDefaultByUserId(userId: string): (r: Option<Address>)
      reads this
      ensures r.None? <==> forall j :: 0 <= j < |data| ==> !(data[j].userId == userId && data[j].isDefault)
      ensures r.Some? ==> r.value.userId == userId && r.value.isDefault &&
                          exists i :: 0 <= i < |data| && data[i] == r.value &&
                                      forall j :: 0 <= j < i ==> !(data[j].userId == userId && data[j].isDefault)
    {
      FindFirst(data, DefaultOf(userId))
    }

    /**
     * `setDefault`: goes through the stored addresses and, on each of the
     * user's, sets `isDefault` to whether its id is `addressId`.
     */
    method SetDefault(userId: string, addressId: string)
      modifies this
      ensures data == DefaultSet(old(data), userId, addressId)
    {
      var i := 0;
      while i < |data|
        invariant 0 <= i <= |data| == |old(data)|
        invariant forall k :: 0 <= k < i ==> data[k] == DefaultSet(old(data), userId, addressId)[k]
        invariant forall k :: i <= k < |data| ==> data[k] == old(data)[k]
      {
        if data[i].userId == userId {
          data := data[i := data[i].(isDefault := data[i].id == addressId)];
        }
        i := i + 1;
      }
    }
  }

  /**
   * After `setDefault(u, a)` the default `findDefaultByUserId(u)` reports
   * is u's first address with id `a`, or none when u has no such address.
   */
  lemma DefaultAfterSetDefault(data: seq<Address>, userId: string, addressId: string)
    ensures var found := FindFirst(data, AddressIs(userId, addressId));
            var d := FindFirst(DefaultSet(data, userId, addressId), DefaultOf(userId));
            && (d.None? <==> found.None?)
            && (found.Some? ==> d == Some(found.value.(isDefault := true)))
  {
    var r := DefaultSet(data, userId, addressId);
    var p := AddressIs(userId, addressId);
    var i := FindIndex(data, p);
    var k := FindIndex(r, DefaultOf(userId));
    assert forall j :: 0 <= j < |data| ==> (DefaultOf(userId)(r[j]) <==> p(data[j]));
    if i == -1 {
      assert k == -1;
    } else {
      assert k == i;
    }
  }

  // ---------------------------------------------------------------------
  // Seed data

  function InitialUsers(): (r: seq<User>)
    ensures |r| == 1
  {
    [User("user-1", "ivan@example.com", "Иван", "Петров", Some("+7 (999) 123-45-67"),
          Some("https://images.unsplash.com/photo-1472099645785-5658abf4ff4e?w=100"), "2023-06-15")]
  }

  function InitialAddresses(): (r: seq<Address>)
    ensures |r| == 2
  {
    [Address("addr-1", "user-1", "Дом", "Иван Петров", "+7 (999) 123-45-67", "Москва", "ул. Тверская", "12",
             Some("45"), "125009", true),
     Address("addr-2", "user-1", "Офис", "Иван Петров", "+7 (999) 123-45-67", "Москва", "ул. Арбат", "24",
             Some("301"), "119002", false)]
  }
}

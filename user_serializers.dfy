/** UserSerializer.create and UserSerializer.update (Users/serializers.py): the validated data is
    merged into the user and profile records field by field, and the password only ever goes
    through set_password. */
module UserSerializers {
  import opened Models

  /** Django stores a password only as a salted hash; the model keeps the hashed input
      symbolically. `Blank` is the empty column of a user created without one. */
  datatype StoredPassword = Blank | Hashed(raw: string)

  /** The writable User fields of the serializer other than password and profile. */
  datatype UserField = Username | Email | FirstName | LastName

  /** The fields of UserProfileSerializer. */
  datatype ProfileField = Phone | Address

  datatype UserRecord = UserRecord(username: string, email: string, firstName: string, lastName: string)
  {
    function Get(f: UserField): string
    {
      match f
      case Username => username
      case Email => email
      case FirstName => firstName
      case LastName => lastName
    }

    /** `setattr(user, f, v)`. */
    function With(f: UserField, v: string): (r: UserRecord)
      ensures r.Get(f) == v
      ensures forall g :: g != f ==> r.Get(g) == Get(g)
    {
      match f
      case Username => this.(username := v)
      case Email => this.(email := v)
      case FirstName => this.(firstName := v)
      case LastName => this.(lastName := v)
    }
  }

  datatype ProfileRecord = ProfileRecord(phone: string, address: string)
  {
    function Get(f: ProfileField): string
    {
      match f
      case Phone => phone
      case Address => address
    }

    function With(f: ProfileField, v: string): (r: ProfileRecord)
      ensures r.Get(f) == v
      ensures forall g :: g != f ==> r.Get(g) == Get(g)
    {
      match f
      case Phone => this.(phone := v)
      case Address => this.(address := v)
    }
  }

  /** The fields a user gets from `User.objects.create` when the data leaves them out. */
  const EmptyUser := UserRecord("", "", "", "")

  /** Overwrite the given fields and keep the others. */
  function MergeUser(old_: UserRecord, given: map<UserField, string>): (r: UserRecord)
    ensures forall f :: r.Get(f) == if f in given then given[f] else old_.Get(f)
  {
    UserRecord(
      if Username in given then given[Username] else old_.username,
      if Email in given then given[Email] else old_.email,
      if FirstName in given then given[FirstName] else old_.firstName,
      if LastName in given then given[LastName] else old_.lastName)
  }

  function MergeProfile(old_: ProfileRecord, given: map<ProfileField, string>): (r: ProfileRecord)
    ensures forall f :: r.Get(f) == if f in given then given[f] else old_.Get(f)
  {
    ProfileRecord(
      if Phone in given then given[Phone] else old_.phone,
      if Address in given then given[Address] else old_.address)
  }

  lemma UserRecordEq(a: UserRecord, b: UserRecord)
    requires forall f :: a.Get(f) == b.Get(f)
    ensures a == b
  {
    assert a.Get(Username) == b.Get(Username) && a.Get(Email) == b.Get(Email);
    assert a.Get(FirstName) == b.Get(FirstName) && a.Get(LastName) == b.Get(LastName);
  }

  lemma ProfileRecordEq(a: ProfileRecord, b: ProfileRecord)
    requires forall f :: a.Get(f) == b.Get(f)
    ensures a == b
  {
    assert a.Get(Phone) == b.Get(Phone) && a.Get(Address) == b.Get(Address);
  }

  /** One setattr more is the merge of one key more: what the loops rely on. */
  lemma MergeUserStep(r: UserRecord, done: map<UserField, string>, f: UserField, v: string)
    ensures MergeUser(r, done).With(f, v) == MergeUser(r, done[f := v])
  {
    UserRecordEq(MergeUser(r, done).With(f, v), MergeUser(r, done[f := v]));
  }

  lemma MergeProfileStep(r: ProfileRecord, done: map<ProfileField, string>, f: ProfileField, v: string)
    ensures MergeProfile(r, done).With(f, v) == MergeProfile(r, done[f := v])
  {
    ProfileRecordEq(MergeProfile(r, done).With(f, v), MergeProfile(r, done[f := v]));
  }

  /** Merging the same data twice is merging it once. */
  lemma MergeUserIdempotent(r: UserRecord, given: map<UserField, string>)
    ensures MergeUser(MergeUser(r, given), given) == MergeUser(r, given)
  {
    UserRecordEq(MergeUser(MergeUser(r, given), given), MergeUser(r, given));
  }

  /** Empty profile data leaves the profile as it was. */
  lemma MergeProfileEmpty(r: ProfileRecord)
    ensures MergeProfile(r, map[]) == r
  {
    ProfileRecordEq(MergeProfile(r, map[]), r);
  }

  /** A later update of the same field wins; fields given only earlier survive. */
  lemma MergeUserTwice(r: UserRecord, first: map<UserField, string>, second: map<UserField, string>)
    ensures MergeUser(MergeUser(r, first), second) == MergeUser(r, first + second)
  {
    UserRecordEq(MergeUser(MergeUser(r, first), second), MergeUser(r, first + second));
  }

  /** The password update rule: only a supplied, non-empty password is hashed and stored. */
  function PasswordAfterUpdate(current: StoredPassword, password: Option<string>): (r: StoredPassword)
    ensures r != current ==> password.Some? && password.value != "" && r == Hashed(password.value)
    ensures password.Some? && password.value != "" ==> r == Hashed(password.value)
  {
    if password.Some? && password.value != "" then Hashed(password.value) else current
  }

  class Profile {
    var phone: string
    var address: string

    /** The profile row the post-save signal creates for a new user. */
    constructor(initial: ProfileRecord)
      ensures Record() == initial
    {
      phone := initial.phone;
      address := initial.address;
    }

    function Record(): ProfileRecord
      reads this
    {
      ProfileRecord(phone, address)
    }

    method SetAttr(f: ProfileField, v: string)
      modifies this
      ensures Record() == old(Record()).With(f, v)
    {
      match f {
        case Phone => phone := v;
        case Address => address := v;
      }
    }

    /** `for attr, value in profile_data.items(): setattr(profile, attr, value)`. */
    method SetAll(given: map<ProfileField, string>)
      modifies this
      ensures Record() == MergeProfile(old(Record()), given)
    {
      var keys := given.Keys;
      ghost var done: map<ProfileField, string> := map[];
      ProfileRecordEq(old(Record()), MergeProfile(old(Record()), done));
      while keys != {}
        invariant keys <= given.Keys && done.Keys == given.Keys - keys
        invariant forall k | k in done :: done[k] == given[k]
        invariant Record() == MergeProfile(old(Record()), done)
        decreases keys
      {
        var k :| k in keys;
        MergeProfileStep(old(Record()), done, k, given[k]);
        SetAttr(k, given[k]);
        done := done[k := given[k]];
        keys := keys - {k};
      }
      assert done == given;
    }
  }

  class User {
    var username: string
    var email: string
    var firstName: string
    var lastName: string
    var password: StoredPassword
    const profile: Profile

    /** `User.objects.create(**fields)` with no password, and the profile the signal attaches. */
    constructor(fields: UserRecord, initialProfile: ProfileRecord)
      ensures Record() == fields && password == Blank && fresh(profile)
      ensures profile.Record() == initialProfile
    {
      username := fields.username;
      email := fields.email;
      firstName := fields.firstName;
      lastName := fields.lastName;
      password := Blank;
      profile := new Profile(initialProfile);
    }

    function Record(): UserRecord
      reads this
    {
      UserRecord(username, email, firstName, lastName)
    }

    method SetAttr(f: UserField, v: string)
      modifies this
      ensures Record() == old(Record()).With(f, v) && password == old(password)
    {
      match f {
        case Username => username := v;
        case Email => email := v;
        case FirstName => firstName := v;
        case LastName => lastName := v;
      }
    }

    /** `set_password`: hashes the raw password; no other field changes. */
    method SetPassword(raw: string)
      modifies this
      ensures password == Hashed(raw) && Record() == old(Record())
    {
      password := Hashed(raw);
    }

    /** `for attr, value in validated_data.items(): setattr(instance, attr, value)`. */
    method SetAll(given: map<UserField, string>)
      modifies this
      ensures Record() == MergeUser(old(Record()), given) && password == old(password)
    {
      var keys := given.Keys;
      ghost var done: map<UserField, string> := map[];
      UserRecordEq(old(Record()), MergeUser(old(Record()), done));
      while keys != {}
        invariant keys <= given.Keys && done.Keys == given.Keys - keys
        invariant forall k | k in done :: done[k] == given[k]
        invariant Record() == MergeUser(old(Record()), done) && password == old(password)
        decreases keys
      {
        var k :| k in keys;
        MergeUserStep(old(Record()), done, k, given[k]);
        SetAttr(k, given[k]);
        done := done[k := given[k]];
        keys := keys - {k};
      }
      assert done == given;
    }
  }

  /** UserSerializer.create: the user row gets the given fields (and blanks elsewhere), the
      password is set only through set_password, and non-empty profile data is merged into the
      profile the signal created. `initialProfile` is that profile's content. */
  method Create(fields: map<UserField, string>, password: string, profileData: map<ProfileField, string>,
                initialProfile: ProfileRecord) returns (user: User)
    ensures fresh(user) && fresh(user.profile)
    ensures user.Record() == MergeUser(EmptyUser, fields)
    ensures user.password == Hashed(password)
    ensures user.profile.Record() == MergeProfile(initialProfile, profileData)
  {
    user := new User(MergeUser(EmptyUser, fields), initialProfile);
    user.SetPassword(password);
    if profileData != map[] {
      user.profile.SetAll(profileData);
    } else {
      MergeProfileEmpty(initialProfile);
    }
  }

  /** UserSerializer.update: given user fields overwrite, the others stay; the password changes
      only for a supplied non-empty one; the profile is merged only when profile data is given. */
  method Update(instance: User, fields: map<UserField, string>, password: Option<string>,
                profileData: map<ProfileField, string>)
    modifies instance, instance.profile
    ensures instance.Record() == MergeUser(old(instance.Record()), fields)
    ensures instance.password == PasswordAfterUpdate(old(instance.password), password)
    ensures instance.profile.Record() == MergeProfile(old(instance.profile.Record()), profileData)
  {
    instance.SetAll(fields);
    if password.Some? && password.value != "" {
      instance.SetPassword(password.value);
    }
    if profileData != map[] {
      instance.profile.SetAll(profileData);
    } else {
      MergeProfileEmpty(instance.profile.Record());
    }
  }
}

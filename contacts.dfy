/** The GetContacts query: its validator, the cache key and lifetime of its
    results, and the projection of the remote user list into contacts. */
module GetContacts {
  import opened Common

  /** The query; `UserId` is a nullable string. */
  datatype Query = Query(userId: Option<string>)

  /** An entry of the remote contact list. Only `TUser` entries carry the
      names and the user name. */
  datatype RemoteUser =
    | TUser(id: Int32, firstName: Option<string>, lastName: Option<string>,
            username: Option<string>, phone: Option<string>)
    | TUserEmpty(id: Int32)

  /** A contact as returned to the caller. */
  datatype Contact = Contact(firstName: Option<string>, id: Int32, lastName: Option<string>, userName: Option<string>)

  /** The one rule the validator has, and the property it names. */
  datatype Rule = NotEmpty
  datatype ValidationFailure = ValidationFailure(property: string, rule: Rule)

  const UserIdProperty: string := "UserId"

  /** A time span, in whole seconds. */
  datatype TimeSpan = TimeSpan(seconds: int)

  function FromHours(h: int): TimeSpan { TimeSpan(h * 3600) }

  /** What the cache-key builder is given: the result type, the query type
      and the values of the projected fields, in order. How it turns them
      into a key is not part of this model, so it appears as a parameter. */
  datatype KeySource = KeySource(resultType: string, queryType: string, projection: seq<Option<string>>)

  /** The characters .NET counts as white space. */
  predicate IsWhiteSpace(c: char) {
    ('\U{9}' <= c <= '\U{D}') || c == '\U{20}' || c == '\U{85}' || c == '\U{A0}' ||
    c == '\U{1680}' || ('\U{2000}' <= c <= '\U{200A}') || c == '\U{2028}' || c == '\U{2029}' ||
    c == '\U{202F}' || c == '\U{205F}' || c == '\U{3000}'
  }

  /** The NotEmpty rule on a string: not null, not empty, not only white space. */
  predicate IsNotEmpty(s: Option<string>) {
    s.Some? && exists i :: 0 <= i < |s.value| && !IsWhiteSpace(s.value[i])
  }

  /** The validator: one failure, on `UserId`, exactly when `UserId` breaks
      the NotEmpty rule, and nothing else is examined. */
  function Validate(q: Query): (failures: seq<ValidationFailure>)
    ensures failures == [] <==> IsNotEmpty(q.userId)
    ensures |failures| <= 1
    ensures forall f :: f in failures ==> f.property == UserIdProperty && f.rule == NotEmpty
  {
    if IsNotEmpty(q.userId) then [] else [ValidationFailure(UserIdProperty, NotEmpty)]
  }

  /** A null or empty user id, or one made only of white space, is refused;
      any user id with a visible character passes. */
  lemma ValidatorRejectsMissingUserId(s: string)
    ensures Validate(Query(None)) != []
    ensures Validate(Query(Some(""))) != []
    ensures (forall i :: 0 <= i < |s| ==> IsWhiteSpace(s[i])) ==> Validate(Query(Some(s))) != []
    ensures (exists i :: 0 <= i < |s| && !IsWhiteSpace(s[i])) ==> Validate(Query(Some(s))) == []
  {
  }

  /** The key projection: the key is built from the user id alone. */
  function KeySourceOf(q: Query): (src: KeySource)
    ensures src.projection == [q.userId]
  {
    KeySource("Contact", "Query", [q.userId])
  }

  /** The cache's key function, for any key builder: the builder applied
      to the user-id projection, so any query with the same user id yields
      this same key. */
  function CacheKey<K>(q: Query, build: KeySource -> K): (k: K)
    ensures forall q': Query :: q'.userId == q.userId ==> k == build(KeySourceOf(q'))
  {
    build(KeySourceOf(q))
  }

  /** Queries with the same user id share a cache key, whatever the builder;
      and the key is fixed by the projected user id. */
  lemma SameUserIdSameKey<K>(q1: Query, q2: Query, build: KeySource -> K)
    requires q1.userId == q2.userId
    ensures CacheKey(q1, build) == CacheKey(q2, build)
    ensures KeySourceOf(q1) == KeySourceOf(q2)
  {
  }

  /** The cache lifetime of a result. */
  function Ttl(q: Query): (ttl: Option<TimeSpan>)
    ensures ttl.Some? && ttl.value.seconds == 24 * 60 * 60
  {
    Some(FromHours(24))
  }

  /** The lifetime is the same for every query. */
  lemma TtlIndependentOfQuery(q1: Query, q2: Query)
    ensures Ttl(q1) == Ttl(q2) == Some(FromHours(24))
  {
  }

  /** The contact copied from a user entry. */
  function ContactOf(u: RemoteUser): (c: Contact)
    requires u.TUser?
    ensures c.firstName == u.firstName && c.id == u.id && c.lastName == u.lastName && c.userName == u.username
  {
    Contact(u.firstName, u.id, u.lastName, u.username)
  }

  /** The projection of the user list: one contact per entry, in the same
      order, copying each user's fields; an entry that is not a `TUser`
      makes the conversion to `TUser`, and so the whole projection, fail. */
  function ToContacts(users: seq<RemoteUser>): (r: Result<seq<Contact>>)
    ensures r.Success? <==> forall i :: 0 <= i < |users| ==> users[i].TUser?
    ensures r.Success? ==> (|r.value| == |users| &&
      forall i :: 0 <= i < |users| ==> users[i].TUser? && r.value[i] == ContactOf(users[i]))
  {
    if users == [] then Success([])
    else if !users[0].TUser? then Failure(CastFault)
    else match ToContacts(users[1..])
      case Failure(f) => Failure(f)
      case Success(rest) => Success([ContactOf(users[0])] + rest)
  }

  const CastFault: Fault := Fault("not a TUser")

  /** The projection distributes over concatenation: order is preserved
      across any split of the user list. */
  lemma ToContactsAppend(a: seq<RemoteUser>, b: seq<RemoteUser>)
    requires ToContacts(a).Success? && ToContacts(b).Success?
    ensures ToContacts(a + b) == Success(ToContacts(a).value + ToContacts(b).value)
  {
    var ab := a + b;
    var whole := ToContacts(a).value + ToContacts(b).value;
    forall i | 0 <= i < |ab| ensures ab[i].TUser? && whole[i] == ContactOf(ab[i]) {
      if i < |a| {
        assert ab[i] == a[i];
      } else {
        assert ab[i] == b[i - |a|];
      }
    }
    assert ToContacts(ab).Success?;
    assert ToContacts(ab).value == whole;
  }

  /** The handler: the remote contact list is fetched with the session built
      from the query's user id (`remote` stands for building that session and
      asking for the contacts), and its users are projected to contacts. */
  function Handle(q: Query, remote: Option<string> -> Result<seq<RemoteUser>>): (r: Result<seq<Contact>>)
    ensures remote(q.userId).Failure? ==> r == Failure(remote(q.userId).error)
    ensures r.Success? <==> (remote(q.userId).Success? &&
      forall i :: 0 <= i < |remote(q.userId).value| ==> remote(q.userId).value[i].TUser?)
    ensures r.Success? ==> (var users := remote(q.userId).value;
      |r.value| == |users| &&
      forall i :: 0 <= i < |users| ==> (users[i].TUser? &&
        r.value[i].firstName == users[i].firstName && r.value[i].id == users[i].id &&
        r.value[i].lastName == users[i].lastName && r.value[i].userName == users[i].username))
  {
    match remote(q.userId)
    case Failure(f) => Failure(f)
    case Success(users) => ToContacts(users)
  }

  /** Only the session for the query's own user id is consulted: two remotes
      that agree on it give the same answer. */
  lemma HandleUsesOwnSession(q: Query, remote1: Option<string> -> Result<seq<RemoteUser>>,
                             remote2: Option<string> -> Result<seq<RemoteUser>>)
    requires remote1(q.userId) == remote2(q.userId)
    ensures Handle(q, remote1) == Handle(q, remote2)
  {
  }
}

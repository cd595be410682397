/** The secure credential store: a platform key-value store and the wrapper the auth
    code calls. A platform call may fail; the wrapper rethrows a failed write, reads a
    failed read as absent, and swallows a failed delete. */
module SecureStorage {
  import opened Optional

  const TokenKey := "auth_token"
  const UserKey := "auth_user"

  /** What a read of `key` returns: the stored value, or nothing when the read fails. */
  function Stored(entries: map<string, string>, key: string, fails: bool): Option<string> {
    if !fails && key in entries then Some(entries[key]) else None
  }

  /** The platform store. A write fault carries the message of the error it throws. */
  class SecureStore {
    var entries: map<string, string>

    constructor ()
      ensures entries == map[]
    {
      entries := map[];
    }

    method SetItem(key: string, value: string, fault: Option<string>) returns (failure: Option<string>)
      modifies this
      ensures failure == fault
      ensures entries == if fault.None? then old(entries)[key := value] else old(entries)
    {
      failure := fault;
      if fault.None? {
        entries := entries[key := value];
      }
    }

    method GetItem(key: string, fails: bool) returns (value: Option<string>)
      ensures value == Stored(entries, key, fails)
    {
      value := if !fails && key in entries then Some(entries[key]) else None;
    }

    method DeleteItem(key: string, fails: bool)
      modifies this
      ensures entries == if fails then old(entries) else old(entries) - {key}
    {
      if !fails {
        entries := entries - {key};
      }
    }
  }

  /** `saveToken`: a failure is rethrown to the caller. */
  method SaveToken(store: SecureStore, token: string, fault: Option<string>) returns (failure: Option<string>)
    modifies store
    ensures failure == fault
    ensures store.entries == if fault.None? then old(store.entries)[TokenKey := token] else old(store.entries)
  {
    failure := store.SetItem(TokenKey, token, fault);
  }

  /** `saveUser`: a failure is rethrown to the caller. */
  method SaveUser(store: SecureStore, user: string, fault: Option<string>) returns (failure: Option<string>)
    modifies store
    ensures failure == fault
    ensures store.entries == if fault.None? then old(store.entries)[UserKey := user] else old(store.entries)
  {
    failure := store.SetItem(UserKey, user, fault);
  }

  /** `getToken`: a failed read counts as no token. */
  method GetToken(store: SecureStore, fails: bool) returns (token: Option<string>)
    ensures token == Stored(store.entries, TokenKey, fails)
  {
    token := store.GetItem(TokenKey, fails);
  }

  /** `getUser`: a failed read counts as no user. */
  method GetUser(store: SecureStore, fails: bool) returns (user: Option<string>)
    ensures user == Stored(store.entries, UserKey, fails)
  {
    user := store.GetItem(UserKey, fails);
  }

  /** `deleteToken`: a failure is swallowed. */
  method DeleteToken(store: SecureStore, fails: bool)
    modifies store
    ensures store.entries == if fails then old(store.entries) else old(store.entries) - {TokenKey}
  {
    store.DeleteItem(TokenKey, fails);
  }

  /** `deleteUser`: a failure is swallowed. */
  method DeleteUser(store: SecureStore, fails: bool)
    modifies store
    ensures store.entries == if fails then old(store.entries) else old(store.entries) - {UserKey}
  {
    store.DeleteItem(UserKey, fails);
  }

  /** What `clearAll` leaves: both deletions are started together, each key goes unless
      its own deletion fails, and any failure is swallowed. */
  function Cleared(entries: map<string, string>, tokenFails: bool, userFails: bool): (r: map<string, string>)
    ensures !tokenFails ==> TokenKey !in r
    ensures !userFails ==> UserKey !in r
    ensures forall k :: k in r ==> k in entries && r[k] == entries[k]
    ensures forall k :: k in entries && k != TokenKey && k != UserKey ==> k in r
  {
    var afterToken := if tokenFails then entries else entries - {TokenKey};
    if userFails then afterToken else afterToken - {UserKey}
  }

  /** `clearAll`. */
  method ClearAll(store: SecureStore, tokenFails: bool, userFails: bool)
    modifies store
    ensures store.entries == Cleared(old(store.entries), tokenFails, userFails)
  {
    store.DeleteItem(TokenKey, tokenFails);
    store.DeleteItem(UserKey, userFails);
  }
}

/** The text form in which a user is kept in the store. Each field is written with its
    length in front, `<digits>:<text>`; an optional field is `-` when absent and `+`
    followed by the field when present. */
module UserCodec {
  import opened Optional
  import opened Text
  import opened AuthTypes

  function Field(s: string): string {
    Decimal(|s|) + ":" + s
  }

  function OptionalField(o: Option<string>): string {
    match o
    case None => "-"
    case Some(s) => "+" + Field(s)
  }

  /** The stored text of a user; never empty, so it always passes a truth test. */
  function Serialize(u: User): (t: string)
    ensures t != ""
  {
    Field(u.id) + Field(u.email) + OptionalField(u.name) + OptionalField(u.avatar)
  }

  /** The number of decimal digits at the start of `s`. */
  function DigitRun(s: string): (k: nat)
    ensures k <= |s| && AllDigits(s[..k])
    ensures k < |s| ==> !IsDigit(s[k])
  {
    if s != [] && IsDigit(s[0]) then
      var k := 1 + DigitRun(s[1..]);
      assert s[..k] == [s[0]] + s[1..][..k - 1];
      k
    else 0
  }

  /** Reads one field from the front of `s`, giving its text and the rest. */
  function ReadField(s: string): Option<(string, string)> {
    var k := DigitRun(s);
    if k == 0 || k >= |s| || s[k] != ':' then None
    else
      var n := DecimalValue(s[..k]);
      if k + 1 + n > |s| then None else Some((s[k + 1..k + 1 + n], s[k + 1 + n..]))
  }

  function ReadOptionalField(s: string): Option<(Option<string>, string)> {
    if s == [] then None
    else if s[0] == '-' then Some((None, s[1..]))
    else if s[0] == '+' then
      match ReadField(s[1..])
      case None => None
      case Some((v, rest)) => Some((Some(v), rest))
    else None
  }

  /** Reads back a stored user; malformed text, or text left over, gives `None`. */
  function Deserialize(t: string): Option<User> {
    match ReadField(t)
    case None => None
    case Some((id, r1)) =>
      match ReadField(r1)
      case None => None
      case Some((email, r2)) =>
        match ReadOptionalField(r2)
        case None => None
        case Some((name, r3)) =>
          match ReadOptionalField(r3)
          case None => None
          case Some((avatar, r4)) => if r4 == [] then Some(User(id, email, name, avatar)) else None
  }

  lemma {:induction false} DigitRunStops(d: string, rest: string)
    requires AllDigits(d)
    requires rest == [] || !IsDigit(rest[0])
    ensures DigitRun(d + rest) == |d|
    decreases |d|
  {
    if d != [] {
      assert (d + rest)[1..] == d[1..] + rest;
      DigitRunStops(d[1..], rest);
    }
  }

  lemma ReadFieldOfField(s: string, rest: string)
    ensures ReadField(Field(s) + rest) == Some((s, rest))
  {
    var d := Decimal(|s|);
    var t := Field(s) + rest;
    assert t == d + ([':'] + s + rest);
    DigitRunStops(d, [':'] + s + rest);
    assert t[..|d|] == d;
    DecimalRoundTrip(|s|);
    var k := |d|;
    assert t[k + 1..k + 1 + |s|] == s;
    assert t[k + 1 + |s|..] == rest;
  }

  lemma ReadOptionalFieldOf(o: Option<string>, rest: string)
    ensures ReadOptionalField(OptionalField(o) + rest) == Some((o, rest))
  {
    match o
    case None =>
      assert (OptionalField(o) + rest)[1..] == rest;
    case Some(s) =>
      assert (OptionalField(o) + rest)[1..] == Field(s) + rest;
      ReadFieldOfField(s, rest);
  }

  /** Reading back the stored text of a user gives that user. */
  lemma RoundTrip(u: User)
    ensures Deserialize(Serialize(u)) == Some(u)
  {
    var a, b, c, d := Field(u.id), Field(u.email), OptionalField(u.name), OptionalField(u.avatar);
    assert Serialize(u) == a + (b + c + d);
    ReadFieldOfField(u.id, b + c + d);
    assert b + c + d == b + (c + d);
    ReadFieldOfField(u.email, c + d);
    ReadOptionalFieldOf(u.name, d);
    assert d == d + [];
    ReadOptionalFieldOf(u.avatar, []);
  }
}

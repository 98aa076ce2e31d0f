/** The text form of a `User` kept under the `"user"` storage key. The
    front end writes `JSON.stringify(user)` and reads it back with
    `JSON.parse`; JSON itself is not part of this model, so this module
    stands in for it with a small self-delimiting format that has the one
    property the session store relies on: reading back what was written
    gives the same user. Each character of a text field is written as `'1'`
    followed by the character, and a field ends with `'0'`; the role and the
    active flag follow as one letter each. */
module UserCodec {
  import opened Types

  function EncodeField(s: string): (r: string)
    ensures |r| == 2 * |s| + 1
  {
    if s == [] then "0" else ['1', s[0]] + EncodeField(s[1..])
  }

  /** Reads one field off the front of `s`, returning it and what follows. */
  function DecodeField(s: string): Option<(string, string)>
  {
    if s == [] then None
    else if s[0] == '0' then Some(([], s[1..]))
    else if s[0] == '1' && |s| >= 2 then
      match DecodeField(s[2..])
      case Some((f, rest)) => Some(([s[1]] + f, rest))
      case None => None
    else None
  }

  /** A field read back from the front of anything is the field written. */
  lemma {:induction false} DecodeEncodeField(s: string, rest: string)
    ensures DecodeField(EncodeField(s) + rest) == Some((s, rest))
  {
    if s != [] {
      assert EncodeField(s) + rest == ['1', s[0]] + (EncodeField(s[1..]) + rest);
      DecodeEncodeField(s[1..], rest);
      assert [s[0]] + s[1..] == s;
    }
  }

  function EncodeRole(r: Role): char
  {
    match r
    case AdminRole => 'a'
    case UserRole => 'u'
  }

  function DecodeRole(c: char): Option<Role>
  {
    if c == 'a' then Some(AdminRole) else if c == 'u' then Some(UserRole) else None
  }

  function EncodeUser(u: User): (r: string)
    ensures r != []
  {
    EncodeField(u.id) + EncodeField(u.email) + [EncodeRole(u.role), if u.active then 't' else 'f']
  }

  function DecodeUser(s: string): Option<User>
  {
    match DecodeField(s)
    case None => None
    case Some((id, rest)) =>
      match DecodeField(rest)
      case None => None
      case Some((email, tail)) =>
        if |tail| != 2 then None
        else
          match DecodeRole(tail[0])
          case None => None
          case Some(role) =>
            if tail[1] == 't' then Some(User(id, email, role, true))
            else if tail[1] == 'f' then Some(User(id, email, role, false))
            else None
  }

  /** Reading back a written user gives the same user. */
  lemma {:induction false} DecodeEncodeUser(u: User)
    ensures DecodeUser(EncodeUser(u)) == Some(u)
  {
    var tail := [EncodeRole(u.role), if u.active then 't' else 'f'];
    assert EncodeUser(u) == EncodeField(u.id) + (EncodeField(u.email) + tail);
    DecodeEncodeField(u.id, EncodeField(u.email) + tail);
    DecodeEncodeField(u.email, tail);
  }
}

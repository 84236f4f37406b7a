/**
  The User and Token collections the auth handlers read and write, and the
  queries they run against them (`User.findOne({email})`,
  `Token.findOne({token})`, `tokenExists.deleteOne()`).
 */
module AuthStore {
  import opened Responses
  import opened Ids
  import opened Credentials

  type Email = string
  type Name = string
  /** The short code `generateToken` produces; supplied by the caller here. */
  type Code = string

  datatype User = User(email: Email, name: Name, password: Digest, confirmed: bool)

  /** A single-use token: its code and the id of the user it belongs to. */
  datatype Token = Token(code: Code, owner: UserId)

  datatype MailKind = Confirmation | PasswordReset

  /** One email handed to the mailer: which template, recipient, greeting name and code. */
  datatype Mail = Mail(kind: MailKind, to: Email, name: Name, code: Code)

  /** No two stored users share an email. */
  ghost predicate UniqueEmails(users: map<UserId, User>)
  {
    forall a, b :: a in users && b in users && users[a].email == users[b].email ==> a == b
  }

  predicate EmailTaken(users: map<UserId, User>, email: Email)
  {
    exists id :: id in users && users[id].email == email
  }

  /** `User.findOne({email})`: the user registered with `email`, if any. */
  function FindUserByEmail(users: map<UserId, User>, email: Email): (r: Option<UserId>)
    requires UniqueEmails(users)
    ensures r.Some? <==> EmailTaken(users, email)
    ensures r.Some? ==> r.value in users && users[r.value].email == email
    ensures forall id :: id in users && users[id].email == email ==> r == Some(id)
  {
    if EmailTaken(users, email) then
      var id :| id in users && users[id].email == email;
      Some(id)
    else
      None
  }

  /** `Token.findOne({token: code})`: the index of the first record carrying `code`. */
  function FindToken(tokens: seq<Token>, code: Code): (r: Option<nat>)
    ensures r.Some? ==> r.value < |tokens| && tokens[r.value].code == code
    ensures r.Some? ==> forall j :: 0 <= j < r.value ==> tokens[j].code != code
    ensures r.None? ==> forall j :: 0 <= j < |tokens| ==> tokens[j].code != code
  {
    if |tokens| == 0 then None
    else if tokens[0].code == code then Some(0)
    else
      match FindToken(tokens[1..], code)
      case None => None
      case Some(k) => Some(k + 1)
  }

  /** The token store after `deleteOne()` on the record at index `i`. */
  function RemoveAt(tokens: seq<Token>, i: nat): (r: seq<Token>)
    requires i < |tokens|
    ensures |r| == |tokens| - 1
    ensures forall j :: 0 <= j < i ==> r[j] == tokens[j]
    ensures forall j :: i <= j < |r| ==> r[j] == tokens[j + 1]
  {
    tokens[..i] + tokens[i + 1..]
  }

  /** How many stored records carry `code`. */
  function CountCode(tokens: seq<Token>, code: Code): nat
  {
    if |tokens| == 0 then 0
    else (if tokens[0].code == code then 1 else 0) + CountCode(tokens[1..], code)
  }

  lemma {:induction false} CountCodeAppend(a: seq<Token>, b: seq<Token>, code: Code)
    ensures CountCode(a + b, code) == CountCode(a, code) + CountCode(b, code)
  {
    if |a| == 0 {
      assert a + b == b;
    } else {
      assert (a + b)[1..] == a[1..] + b;
      CountCodeAppend(a[1..], b, code);
    }
  }

  /** A code is found by `Token.findOne` exactly when some record carries it. */
  lemma {:induction false} FoundIffCounted(tokens: seq<Token>, code: Code)
    ensures FindToken(tokens, code).Some? <==> CountCode(tokens, code) > 0
  {
    if |tokens| > 0 {
      FoundIffCounted(tokens[1..], code);
    }
  }

  /** Deleting one record lowers the count of its code by one and leaves every other code's count alone. */
  lemma {:induction false} RemoveAtCount(tokens: seq<Token>, i: nat, code: Code)
    requires i < |tokens|
    ensures CountCode(RemoveAt(tokens, i), code)
         == CountCode(tokens, code) - (if tokens[i].code == code then 1 else 0)
  {
    assert tokens == tokens[..i] + ([tokens[i]] + tokens[i + 1..]);
    CountCodeAppend(tokens[..i], [tokens[i]] + tokens[i + 1..], code);
    CountCodeAppend([tokens[i]], tokens[i + 1..], code);
    CountCodeAppend(tokens[..i], tokens[i + 1..], code);
    assert [tokens[i]][1..] == [];
  }

  /** When exactly one record carries a code, every record with that code is the one found. */
  lemma {:induction false} SoleCodeFound(tokens: seq<Token>, code: Code, j: nat)
    requires CountCode(tokens, code) == 1
    requires j < |tokens| && tokens[j].code == code
    ensures FindToken(tokens, code) == Some(j)
  {
    if tokens[0].code == code {
      FoundIffCounted(tokens[1..], code);
      assert j == 0;
    } else {
      SoleCodeFound(tokens[1..], code, j - 1);
    }
  }

  /** Consuming the only record with a code leaves the code unresolvable. */
  lemma ConsumedCodeGone(tokens: seq<Token>, code: Code)
    requires CountCode(tokens, code) == 1
    ensures FindToken(tokens, code).Some?
    ensures FindToken(RemoveAt(tokens, FindToken(tokens, code).value), code).None?
  {
    FoundIffCounted(tokens, code);
    var i := FindToken(tokens, code).value;
    RemoveAtCount(tokens, i, code);
    FoundIffCounted(RemoveAt(tokens, i), code);
  }

  /** Storing a new record never hides an older match; it is found when it is the first with its code. */
  lemma {:induction false} FindTokenAppend(tokens: seq<Token>, t: Token, code: Code)
    ensures FindToken(tokens + [t], code)
         == if FindToken(tokens, code).Some? then FindToken(tokens, code)
            else if t.code == code then Some(|tokens|)
            else None
  {
    if |tokens| > 0 {
      assert (tokens + [t])[1..] == tokens[1..] + [t];
      FindTokenAppend(tokens[1..], t, code);
    }
  }
}

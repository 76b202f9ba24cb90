/**
 * The persisted session: two keys of the browser's key/value storage.
 * The storage is a map from keys to strings; `Read` is `getItem(key) || ''`.
 */
module Storage {

  const TokenKey: string := "token"
  const UsernameKey: string := "username"

  /** The keys that this module writes or removes. */
  predicate SessionKey(key: string) {
    key == TokenKey || key == UsernameKey
  }

  /** `getItem(key) || ''`: a missing key and a stored empty string both read as "". */
  function Read(items: map<string, string>, key: string): (v: string)
    ensures v != "" <==> key in items && items[key] != ""
    ensures key in items ==> v == items[key]
  {
    if key in items then items[key] else ""
  }

  /** `getToken()` on the given storage contents: falsy exactly when no non-empty token is stored. */
  function Token(items: map<string, string>): (t: string)
    ensures t == "" <==> TokenKey !in items || items[TokenKey] == ""
  {
    Read(items, TokenKey)
  }

  /** `getUsername()` on the given storage contents: falsy exactly when no non-empty username is stored. */
  function Username(items: map<string, string>): (u: string)
    ensures u == "" <==> UsernameKey !in items || items[UsernameKey] == ""
  {
    Read(items, UsernameKey)
  }

  /** Every key other than the two session keys is present in both maps with the same value. */
  ghost predicate OthersUnchanged(before: map<string, string>, after: map<string, string>) {
    forall k :: !SessionKey(k) ==> (k in before <==> k in after) && (k in before ==> before[k] == after[k])
  }

  /** Contents after `setToken(token)`. */
  function WithToken(items: map<string, string>, token: string): (r: map<string, string>)
    ensures TokenKey in r && r[TokenKey] == token
    ensures Token(r) == token
    ensures Username(r) == Username(items)
    ensures UsernameKey in r <==> UsernameKey in items
    ensures UsernameKey in items ==> r[UsernameKey] == items[UsernameKey]
    ensures OthersUnchanged(items, r)
  {
    items[TokenKey := token]
  }

  /** Contents after `setUsername(username)`. */
  function WithUsername(items: map<string, string>, username: string): (r: map<string, string>)
    ensures UsernameKey in r && r[UsernameKey] == username
    ensures Username(r) == username
    ensures Token(r) == Token(items)
    ensures TokenKey in r <==> TokenKey in items
    ensures TokenKey in items ==> r[TokenKey] == items[TokenKey]
    ensures OthersUnchanged(items, r)
  {
    items[UsernameKey := username]
  }

  /** Contents after `clearStorage()`: both keys removed, nothing else touched. */
  function Cleared(items: map<string, string>): (r: map<string, string>)
    ensures TokenKey !in r && UsernameKey !in r
    ensures Token(r) == "" && Username(r) == ""
    ensures OthersUnchanged(items, r)
  {
    items - {TokenKey} - {UsernameKey}
  }

  /** Clearing twice is clearing once. */
  lemma ClearIdempotent(items: map<string, string>)
    ensures Cleared(Cleared(items)) == Cleared(items)
  {
  }

  /** A removed key and a key holding "" cannot be told apart by `Read`. */
  lemma MissingReadsAsEmpty(items: map<string, string>, key: string)
    ensures Read(items - {key}, key) == Read(items[key := ""], key) == ""
  {
  }

  /** Reading back what was written: a non-empty token or username reads as itself afterwards. */
  lemma WriteThenRead(items: map<string, string>, token: string, username: string)
    ensures Token(WithUsername(WithToken(items, token), username)) == token
    ensures Username(WithUsername(WithToken(items, token), username)) == username
    ensures Token(WithToken(WithUsername(items, username), token)) == token
    ensures Username(WithToken(WithUsername(items, username), token)) == username
  {
  }

  /** `localStorage`, restricted to what the session helpers do with it. */
  class SessionStore {
    var items: map<string, string>

    constructor (initial: map<string, string>)
      ensures items == initial
    {
      items := initial;
    }

    method SetToken(token: string)
      modifies this
      ensures items == WithToken(old(items), token)
    {
      items := items[TokenKey := token];
    }

    method GetToken() returns (token: string)
      ensures TokenKey in items ==> token == items[TokenKey]
      ensures TokenKey !in items ==> token == ""
    {
      if TokenKey in items {
        token := items[TokenKey];
      } else {
        token := "";
      }
    }

    method SetUsername(username: string)
      modifies this
      ensures items == WithUsername(old(items), username)
    {
      items := items[UsernameKey := username];
    }

    method GetUsername() returns (username: string)
      ensures UsernameKey in items ==> username == items[UsernameKey]
      ensures UsernameKey !in items ==> username == ""
    {
      if UsernameKey in items {
        username := items[UsernameKey];
      } else {
        username := "";
      }
    }

    method ClearStorage()
      modifies this
      ensures items == Cleared(old(items))
    {
      items := items - {TokenKey};
      items := items - {UsernameKey};
    }
  }
}

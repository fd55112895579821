/**
  The browser's `localStorage` as the widget uses it: a string-to-string
  dictionary that is read with `getItem`, written with `setItem` (which stores
  `String(value)`) and pruned with `removeItem`. The keys the widget keeps
  there are named here once.
 */
module Storage {
  import opened Js

  const EmailKey := "email"
  const SessionIdKey := "sessionId"
  const ConversationIdKey := "conversationId"
  const ConversationIdSessionIdKey := "conversationIdSessionId"
  const ConversationIdEmailKey := "conversationIdEmail"
  const IsEmailConversationKey := "isEmailConversation"
  const GreetingMessageKey := "greetingMessage"

  /** The value `getItem(key)` returns: the stored string, or `null`. */
  function Get(items: map<string, string>, key: string): Option<string>
  {
    if key in items then Some(items[key]) else None
  }

  class LocalStorage {
    var items: map<string, string>

    constructor (initial: map<string, string>)
      ensures items == initial
    {
      items := initial;
    }

    method GetItem(key: string) returns (item: Option<string>)
      ensures item == Get(items, key)
    {
      if key in items {
        item := Some(items[key]);
      } else {
        item := None;
      }
    }

    /** Stores the string form of `value`: `null` becomes "null", `false`
        becomes "false", `undefined` becomes "undefined". */
    method SetItem(key: string, value: Value)
      modifies this
      ensures items == old(items)[key := ToStr(value)]
    {
      items := items[key := ToStr(value)];
    }

    method RemoveItem(key: string)
      modifies this
      ensures items == old(items) - {key}
    {
      items := items - {key};
    }
  }
}

/**
 * The browser-side admin session of src/config/admin.ts: a fixed username
 * and password, and a session entry in the page's localStorage holding the
 * JSON text `{"authenticated":true,"expires":<ms>}`. The clock is a
 * parameter, and so is `JSON.parse`, which the model does not implement.
 */
module AdminConfig {
  import opened Wrappers
  import opened Json
  import Text

  const Username := "admin"
  const Password := "admin123"
  /** The localStorage key of the session entry. */
  const SessionKey := "admin_session"
  /** Twenty-four hours in milliseconds. */
  const SessionDuration := 24 * 60 * 60 * 1000

  /** `JSON.stringify({ authenticated: true, expires })` for a whole number of milliseconds. */
  function SessionText(expires: nat): string {
    "{\"authenticated\":true,\"expires\":" + Text.NatToString(expires) + "}"
  }

  /** The value `JSON.parse` gives back for that text. */
  function SessionValue(expires: nat): Json {
    JObj(map["authenticated" := JBool(true), "expires" := JNum(expires)])
  }

  /** `JSON.parse` reads back what `JSON.stringify` wrote for a session. */
  ghost predicate ParsesSessions(parse: string -> Fallible<Json>) {
    forall e: nat :: parse(SessionText(e)) == Ok(SessionValue(e))
  }

  /** `sessionData.expires > now` for a parsed value: `expires` is converted to a number as the
      comparison does, so text and one-element arrays count too; `undefined` and NaN compare false. */
  predicate ExpiresAfter(data: Json, now: int) {
    match Field(data, "expires")
    case Some(v) => NumberValue(v).Some? && NumberValue(v).value > now
    case None => false
  }

  /**
   * `isAuthenticated()`: false without a window, without a non-empty entry,
   * or when the entry does not parse; otherwise whether `expires` is strictly
   * later than `now`. The `authenticated` member is never read.
   */
  predicate SessionValid(hasWindow: bool, storage: map<string, string>, now: int, parse: string -> Fallible<Json>) {
    && hasWindow
    && SessionKey in storage && storage[SessionKey] != []
    && parse(storage[SessionKey]).Ok?
    && ExpiresAfter(parse(storage[SessionKey]).value, now)
  }

  /** The page's localStorage and whether the code runs in a browser window at all. */
  class Browser {
    var storage: map<string, string>
    const hasWindow: bool

    constructor(hasWindow: bool, storage: map<string, string>)
      ensures this.hasWindow == hasWindow && this.storage == storage
    {
      this.hasWindow := hasWindow;
      this.storage := storage;
    }

    predicate IsAuthenticated(now: int, parse: string -> Fallible<Json>)
      reads this
    {
      SessionValid(hasWindow, storage, now, parse)
    }

    /**
     * `authenticate(username, password)`: on the exact credentials, stores a
     * session that expires a day after `now` and returns true; otherwise
     * changes nothing and returns false. Outside a browser `localStorage` is
     * undefined and the write throws.
     */
    method Authenticate(username: string, password: string, now: nat) returns (r: Fallible<bool>)
      modifies this
      ensures username == Username && password == Password && hasWindow ==>
        r == Ok(true) && storage == old(storage)[SessionKey := SessionText(now + SessionDuration)]
      ensures username == Username && password == Password && !hasWindow ==> r.Threw? && storage == old(storage)
      ensures !(username == Username && password == Password) ==> r == Ok(false) && storage == old(storage)
    {
      if username == Username && password == Password {
        if !hasWindow {
          return Threw;
        }
        storage := storage[SessionKey := SessionText(now + SessionDuration)];
        return Ok(true);
      }
      return Ok(false);
    }

    /** `logout()`: removes the session entry (throws outside a browser). */
    method Logout() returns (r: Fallible<()>)
      modifies this
      ensures hasWindow ==> r == Ok(()) && storage == old(storage) - {SessionKey}
      ensures !hasWindow ==> r.Threw? && storage == old(storage)
    {
      if !hasWindow {
        return Threw;
      }
      storage := storage - {SessionKey};
      return Ok(());
    }
  }

  /** A stored session counts as authenticated exactly until its expiry instant, which is excluded. */
  lemma FreshSessionLastsADay(storage: map<string, string>, start: nat, now: int, parse: string -> Fallible<Json>)
    requires ParsesSessions(parse)
    ensures SessionValid(true, storage[SessionKey := SessionText(start + SessionDuration)], now, parse)
      <==> now < start + SessionDuration
  {
    var text := SessionText(start + SessionDuration);
    assert parse(text) == Ok(SessionValue(start + SessionDuration));
  }

  /** After logout no session is valid, at any time. */
  lemma LoggedOutIsNotAuthenticated(storage: map<string, string>, now: int, parse: string -> Fallible<Json>)
    ensures !SessionValid(true, storage - {SessionKey}, now, parse)
  {
  }

  /** Without a window nothing is authenticated, whatever is stored. */
  lemma NoWindowNoSession(storage: map<string, string>, now: int, parse: string -> Fallible<Json>)
    ensures !SessionValid(false, storage, now, parse)
  {
  }

  /** Only `expires` decides: an entry claiming `authenticated: false` is valid just the same. */
  lemma FlagIsNotRead(storage: map<string, string>, now: int, parse: string -> Fallible<Json>, expires: int)
    requires SessionKey in storage && storage[SessionKey] != []
    requires parse(storage[SessionKey]) == Ok(JObj(map["authenticated" := JBool(false), "expires" := JNum(expires)]))
    ensures SessionValid(true, storage, now, parse) <==> expires > now
  {
  }

  /** An expiry stored as decimal text, or as a one-element array of it, is compared as the
      number it spells; an `expires` that is an object never compares greater. */
  lemma TextExpiryIsCompared(storage: map<string, string>, now: int, parse: string -> Fallible<Json>,
                             e: nat, entry: Json)
    requires SessionKey in storage && storage[SessionKey] != []
    requires entry in {JStr(Text.NatToString(e)), JArr([JStr(Text.NatToString(e))])}
    requires parse(storage[SessionKey]) == Ok(JObj(map["expires" := entry]))
    ensures SessionValid(true, storage, now, parse) <==> e > now
  {
    NumberValueOfDecimalText(e);
  }

  /** An `expires` member that is an object, or a missing one, is never later than the clock. */
  lemma ObjectExpiryNeverValid(storage: map<string, string>, now: int, parse: string -> Fallible<Json>)
    requires SessionKey in storage && parse(storage[SessionKey]).Ok?
    requires parse(storage[SessionKey]).value.JObj?
    requires "expires" !in parse(storage[SessionKey]).value.fields
          || parse(storage[SessionKey]).value.fields["expires"].JObj?
    ensures !SessionValid(true, storage, now, parse)
  {
  }

  /** Login then logout in one browser: the session is gone and the other entries are as they were. */
  method LoginLogout(b: Browser, now: nat, parse: string -> Fallible<Json>)
    requires b.hasWindow
    modifies b
    ensures b.storage == old(b.storage) - {SessionKey}
    ensures !b.IsAuthenticated(now, parse)
  {
    var ok := b.Authenticate(Username, Password, now);
    assert ok == Ok(true);
    var done := b.Logout();
    assert b.storage == old(b.storage)[SessionKey := SessionText(now + SessionDuration)] - {SessionKey};
  }
}

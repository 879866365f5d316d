/**
 * The account store of the rewards advisor: registered users, each user's
 * spending ledger and each user's card settings.
 *
 * The three JSON files the application keeps (users, spending, cards) are the
 * three map fields of class `Store`; a user without a slot in a file reads as
 * an empty ledger or an empty card table, as the loaders do.
 */
module Accounts {
  import opened Wrappers

  // ---------------------------------------------------------------------------
  // Ledger entries and the specification of the ledger operations
  // ---------------------------------------------------------------------------

  /** One row of a user's spending ledger. The amount is stored, never computed on. */
  datatype Entry = Entry(
    id: int,
    cardName: string,
    category: string,
    amount: real,
    date: string,
    notes: string,
    timestamp: string)

  /** `a` and `b` agree on every field except, possibly, `id`. */
  predicate SameExceptId(a: Entry, b: Entry) {
    a.(id := b.id) == b
  }

  /** The ids of the ledger are exactly 1, 2, ..., |s| in list order. */
  predicate Dense(s: seq<Entry>) {
    forall i :: 0 <= i < |s| ==> s[i].id == i + 1
  }

  /** Some entry of the ledger carries id `x`. */
  predicate HasId(s: seq<Entry>, x: int) {
    exists i :: 0 <= i < |s| && s[i].id == x
  }

  /** The list comprehension of the delete operation: drop every entry whose id is `x`. */
  function Without(s: seq<Entry>, x: int): (r: seq<Entry>)
    ensures |r| <= |s|
  {
    if s == [] then []
    else if s[0].id != x then [s[0]] + Without(s[1..], x)
    else Without(s[1..], x)
  }

  /** The filter keeps exactly the entries whose id differs from `x`. */
  lemma {:induction false} WithoutMembers(s: seq<Entry>, x: int)
    ensures forall e :: e in Without(s, x) <==> e in s && e.id != x
  {
    if s != [] {
      WithoutMembers(s[1..], x);
      assert s == [s[0]] + s[1..];
    }
  }

  /** The ledger with its entries renumbered 1..N in their current order. */
  function Renumbered(s: seq<Entry>): (r: seq<Entry>)
    ensures |r| == |s| && Dense(r)
    ensures forall i :: 0 <= i < |s| ==> SameExceptId(r[i], s[i])
  {
    seq(|s|, i requires 0 <= i < |s| => s[i].(id := i + 1))
  }

  /** What deleting id `x` makes of ledger `s`: filter, then renumber. */
  function Deleted(s: seq<Entry>, x: int): (r: seq<Entry>)
    ensures |r| <= |s| && Dense(r)
  {
    Renumbered(Without(s, x))
  }

  /** What adding an entry makes of ledger `s`: the new entry, numbered |s| + 1, goes last. */
  function Appended(s: seq<Entry>, cardName: string, category: string, amount: real,
                    date: string, notes: string, now: string): (r: seq<Entry>)
    ensures |r| == |s| + 1 && r[..|s|] == s
    ensures r[|s|] == Entry(|s| + 1, cardName, category, amount, date, notes, now)
    ensures Dense(s) ==> Dense(r) && !HasId(s, r[|s|].id)
  {
    s + [Entry(|s| + 1, cardName, category, amount, date, notes, now)]
  }

  /**
   * The renumbering loop of the delete operation: every entry's id is
   * overwritten with its 1-based position, in list order.
   */
  method Reindex(entries: seq<Entry>) returns (r: seq<Entry>)
    ensures |r| == |entries| && Dense(r)
    ensures forall i :: 0 <= i < |r| ==> SameExceptId(r[i], entries[i])
  {
    r := entries;
    var i := 0;
    while i < |r|
      invariant 0 <= i <= |r| == |entries|
      invariant forall j :: 0 <= j < i ==> r[j].id == j + 1
      invariant forall j :: 0 <= j < |r| ==> SameExceptId(r[j], entries[j])
    {
      r := r[i := r[i].(id := i + 1)];
      i := i + 1;
    }
  }

  /** A dense ledger agreeing with `s` except on ids is `Renumbered(s)`. */
  lemma RenumberedUnique(s: seq<Entry>, r: seq<Entry>)
    requires |r| == |s| && Dense(r)
    requires forall i :: 0 <= i < |s| ==> SameExceptId(r[i], s[i])
    ensures r == Renumbered(s)
  {
    forall i | 0 <= i < |s| ensures r[i] == Renumbered(s)[i] {
      assert r[i].(id := s[i].id) == s[i];
      assert r[i] == r[i].(id := s[i].id).(id := i + 1);
    }
  }

  /** Filtering distributes over concatenation: surviving entries keep their relative order. */
  lemma {:induction false} WithoutAppend(a: seq<Entry>, b: seq<Entry>, x: int)
    ensures Without(a + b, x) == Without(a, x) + Without(b, x)
  {
    if a == [] {
      assert a + b == b;
    } else {
      assert (a + b)[0] == a[0];
      assert (a + b)[1..] == a[1..] + b;
      WithoutAppend(a[1..], b, x);
    }
  }

  /** Filtering out an id that no entry carries removes nothing. */
  lemma {:induction false} WithoutAbsent(s: seq<Entry>, x: int)
    requires !HasId(s, x)
    ensures Without(s, x) == s
  {
    if s != [] {
      assert s[0].id != x;
      assert !HasId(s[1..], x) by {
        forall i | 0 <= i < |s[1..]| ensures s[1..][i].id != x {
          assert s[1..][i] == s[i + 1];
        }
      }
      WithoutAbsent(s[1..], x);
      assert [s[0]] + s[1..] == s;
    }
  }

  /**
   * Deleting an id that is not present raises nothing and removes nothing:
   * the ledger keeps its length and every non-id field, and a dense ledger
   * comes back unchanged.
   */
  lemma DeleteAbsentId(s: seq<Entry>, x: int)
    requires !HasId(s, x)
    ensures |Deleted(s, x)| == |s|
    ensures forall i :: 0 <= i < |s| ==> SameExceptId(Deleted(s, x)[i], s[i])
    ensures Dense(s) ==> Deleted(s, x) == s
  {
    WithoutAbsent(s, x);
    if Dense(s) {
      forall i | 0 <= i < |s| ensures s[i] == Renumbered(s)[i] {
        assert s[i].(id := i + 1) == s[i];
      }
    }
  }

  /** The ids of the ledger are off, off + 1, ... in list order. */
  predicate DenseFrom(s: seq<Entry>, off: int) {
    forall i :: 0 <= i < |s| ==> s[i].id == off + i
  }

  /** Past the head of a ledger numbered from `off`, the ids start at off + 1. */
  lemma DenseFromTail(s: seq<Entry>, off: int)
    requires DenseFrom(s, off) && s != []
    ensures DenseFrom(s[1..], off + 1) && !HasId(s[1..], off)
  {
    var rest := s[1..];
    forall i | 0 <= i < |rest| ensures rest[i].id == off + 1 + i {
      assert rest[i] == s[i + 1];
    }
  }

  /** Removing the k-th element of `s` is keeping its head and removing the (k-1)-th of its tail. */
  lemma SpliceTail<T>(s: seq<T>, k: int)
    requires 1 <= k < |s|
    ensures [s[0]] + (s[1..][..k - 1] + s[1..][k..]) == s[..k] + s[k + 1..]
  {
    assert [s[0]] + s[1..][..k - 1] == s[..k];
  }

  /** In a ledger numbered from `off`, the filter drops exactly the entry numbered `x`. */
  lemma {:induction false} WithoutFromDenseFrom(s: seq<Entry>, x: int, off: int)
    requires DenseFrom(s, off) && off <= x < off + |s|
    ensures Without(s, x) == s[..x - off] + s[x - off + 1..]
  {
    DenseFromTail(s, off);
    if x == off {
      WithoutAbsent(s[1..], x);
      assert s[..0] + s[1..] == s[1..];
    } else {
      WithoutFromDenseFrom(s[1..], x, off + 1);
      SpliceTail(s, x - off);
    }
  }

  /** In a dense ledger holding id `x`, the filter drops exactly the x-th entry. */
  lemma WithoutFromDense(s: seq<Entry>, x: int)
    requires Dense(s) && 1 <= x <= |s|
    ensures Without(s, x) == s[..x - 1] + s[x..]
  {
    WithoutFromDenseFrom(s, x, 1);
  }

  /**
   * Deleting id `x` from a dense ledger that holds it removes exactly the
   * x-th entry; the entries before it are untouched and each entry after it
   * moves down one place and takes the id of its new position.
   */
  lemma DeleteFromDense(s: seq<Entry>, x: int)
    requires Dense(s) && 1 <= x <= |s|
    ensures |Deleted(s, x)| == |s| - 1
    ensures forall i :: 0 <= i < x - 1 ==> Deleted(s, x)[i] == s[i]
    ensures forall i :: x - 1 <= i < |s| - 1 ==> Deleted(s, x)[i] == s[i + 1].(id := i + 1)
  {
    WithoutFromDense(s, x);
    var kept := s[..x - 1] + s[x..];
    forall i | 0 <= i < x - 1 ensures Deleted(s, x)[i] == s[i] {
      assert kept[i] == s[i];
      assert s[i].(id := i + 1) == s[i];
    }
    forall i | x - 1 <= i < |s| - 1 ensures Deleted(s, x)[i] == s[i + 1].(id := i + 1) {
      assert kept[i] == s[i + 1];
    }
  }

  /** Deleting the only entry of a ledger empties it, so the next entry added is numbered 1. */
  lemma DeleteLastThenAdd(s: seq<Entry>, cardName: string, category: string, amount: real,
                          date: string, notes: string, now: string)
    requires |s| == 1
    ensures Deleted(s, s[0].id) == []
    ensures Appended(Deleted(s, s[0].id), cardName, category, amount, date, notes, now)[0].id == 1
  {
    assert s[1..] == [];
  }

  // ---------------------------------------------------------------------------
  // Users and cards
  // ---------------------------------------------------------------------------

  /** One user's account row. */
  datatype UserRecord = UserRecord(password: string, email: string, createdAt: string, role: string)

  /** The settings saved for one card of one user. */
  datatype CardSettings = CardSettings(statementDay: int, paymentDays: int, updatedAt: string)

  const UsernameTaken := "Username already exists"
  const UsernameTooShort := "Username must be at least 3 characters"
  const PasswordTooShort := "Password must be at least 6 characters"
  const Registered := "Registration successful"

  // ---------------------------------------------------------------------------
  // The store
  // ---------------------------------------------------------------------------

  class Store {
    /** The users file: username to account row. */
    var users: map<string, UserRecord>
    /** The spending file: username to that user's ledger. */
    var spending: map<string, seq<Entry>>
    /** The cards file: username to (card name to settings). */
    var cards: map<string, map<string, CardSettings>>

    constructor (users0: map<string, UserRecord>, spending0: map<string, seq<Entry>>,
                 cards0: map<string, map<string, CardSettings>>)
      ensures users == users0 && spending == spending0 && cards == cards0
    {
      users, spending, cards := users0, spending0, cards0;
    }

    /** Every ledger in the spending file is numbered 1..N. */
    ghost predicate LedgersDense()
      reads this
    {
      forall u :: u in spending ==> Dense(spending[u])
    }

    /** A user's ledger; a user without a slot has the empty ledger. */
    function LoadUserSpending(username: string): (r: seq<Entry>)
      reads this
      ensures username !in spending ==> r == []
      ensures username in spending ==> r == spending[username]
    {
      if username in spending then spending[username] else []
    }

    /** A user's card table; a user without a slot has no cards. */
    function LoadUserCards(username: string): (r: map<string, CardSettings>)
      reads this
      ensures username !in cards ==> r == map[]
      ensures username in cards ==> r == cards[username]
    {
      if username in cards then cards[username] else map[]
    }

    /** Replace one user's ledger, leaving every other user's slot as it was. */
    method SaveUserSpending(username: string, data: seq<Entry>)
      modifies this
      ensures spending == old(spending)[username := data]
      ensures LoadUserSpending(username) == data
      ensures forall other :: other != username ==> LoadUserSpending(other) == old(LoadUserSpending(other))
      ensures users == old(users) && cards == old(cards)
    {
      spending := spending[username := data];
    }

    /** Replace one user's card table, leaving every other user's slot as it was. */
    method SaveUserCards(username: string, data: map<string, CardSettings>)
      modifies this
      ensures cards == old(cards)[username := data]
      ensures LoadUserCards(username) == data
      ensures forall other :: other != username ==> LoadUserCards(other) == old(LoadUserCards(other))
      ensures users == old(users) && spending == old(spending)
    {
      cards := cards[username := data];
    }

    /** Overwrite the whole users file. */
    method SaveUsers(newUsers: map<string, UserRecord>)
      modifies this
      ensures users == newUsers
      ensures spending == old(spending) && cards == old(cards)
    {
      users := newUsers;
    }

    /**
     * Set the settings of one card of one user; every other card of that
     * user and every other user's cards stay as they were.
     */
    method UpdateCardSettings(username: string, cardName: string, statementDay: int,
                              paymentDays: int, now: string)
      modifies this
      ensures LoadUserCards(username) == old(LoadUserCards(username))[cardName := CardSettings(statementDay, paymentDays, now)]
      ensures forall other :: other != username ==> LoadUserCards(other) == old(LoadUserCards(other))
      ensures users == old(users) && spending == old(spending)
    {
      var cardsData := LoadUserCards(username);
      cardsData := cardsData[cardName := CardSettings(statementDay, paymentDays, now)];
      SaveUserCards(username, cardsData);
    }

    /**
     * Append an entry to a user's ledger. Its id is the old ledger length
     * plus one; the earlier entries and every other user are unchanged, and
     * on a dense ledger the new id is fresh and the ledger stays dense.
     */
    method AddSpendingEntry(username: string, cardName: string, category: string, amount: real,
                            date: string, notes: string, now: string) returns (entry: Entry)
      modifies this
      ensures entry == Entry(|old(LoadUserSpending(username))| + 1, cardName, category, amount, date, notes, now)
      ensures LoadUserSpending(username) == old(LoadUserSpending(username)) + [entry]
      ensures LoadUserSpending(username) ==
                Appended(old(LoadUserSpending(username)), cardName, category, amount, date, notes, now)
      ensures Dense(old(LoadUserSpending(username))) ==>
                Dense(LoadUserSpending(username)) && !HasId(old(LoadUserSpending(username)), entry.id)
      ensures old(LedgersDense()) ==> LedgersDense()
      ensures forall other :: other != username ==> LoadUserSpending(other) == old(LoadUserSpending(other))
      ensures users == old(users) && cards == old(cards)
    {
      var spendingData := LoadUserSpending(username);
      entry := Entry(|spendingData| + 1, cardName, category, amount, date, notes, now);
      spendingData := spendingData + [entry];
      assert spendingData == Appended(old(LoadUserSpending(username)), cardName, category, amount, date, notes, now);
      SaveUserSpending(username, spendingData);
    }

    /**
     * Remove every entry of a user's ledger whose id is `entryId`, then
     * renumber the survivors 1..N in their original order. An absent id is
     * not an error: the ledger is rewritten with nothing removed.
     */
    method DeleteSpendingEntry(username: string, entryId: int)
      modifies this
      ensures LoadUserSpending(username) == Deleted(old(LoadUserSpending(username)), entryId)
      ensures Dense(LoadUserSpending(username))
      ensures old(LedgersDense()) ==> LedgersDense()
      ensures forall other :: other != username ==> LoadUserSpending(other) == old(LoadUserSpending(other))
      ensures users == old(users) && cards == old(cards)
    {
      var spendingData := LoadUserSpending(username);
      spendingData := Without(spendingData, entryId);
      var reindexed := Reindex(spendingData);
      RenumberedUnique(spendingData, reindexed);
      SaveUserSpending(username, reindexed);
    }

    /** The account row of a user, if the user is registered. */
    function GetUserInfo(username: string): (r: Option<UserRecord>)
      reads this
      ensures r.Some? <==> username in users
      ensures r.Some? ==> r.value == users[username]
    {
      if username in users then Some(users[username]) else None
    }

    /** The user is registered and the stored password is the one given. */
    function CheckLogin(username: string, password: string): (r: bool)
      reads this
      ensures r <==> GetUserInfo(username).Some? && GetUserInfo(username).value.password == password
    {
      username in users && users[username].password == password
    }

    /**
     * Register a new account. The checks run in a fixed order (name taken,
     * name shorter than 3, password shorter than 6); the first failing one
     * is reported and the users file is left alone. On success the new user
     * has role "user" and can log in with the password given.
     */
    method RegisterUser(username: string, password: string, email: string, now: string)
      returns (ok: bool, message: string)
      modifies this
      ensures ok <==> username !in old(users) && |username| >= 3 && |password| >= 6
      ensures username in old(users) ==> message == UsernameTaken
      ensures username !in old(users) && |username| < 3 ==> message == UsernameTooShort
      ensures username !in old(users) && |username| >= 3 && |password| < 6 ==> message == PasswordTooShort
      ensures ok ==> message == Registered
      ensures ok ==> users == old(users)[username := UserRecord(password, email, now, "user")]
      ensures ok ==> CheckLogin(username, password) && GetUserInfo(username).value.role == "user"
      ensures !ok ==> users == old(users)
      ensures spending == old(spending) && cards == old(cards)
    {
      var current := users;
      if username in current {
        return false, UsernameTaken;
      }
      if |username| < 3 {
        return false, UsernameTooShort;
      }
      if |password| < 6 {
        return false, PasswordTooShort;
      }
      current := current[username := UserRecord(password, email, now, "user")];
      SaveUsers(current);
      return true, Registered;
    }
  }
}

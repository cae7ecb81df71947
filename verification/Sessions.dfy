/** Client sessions, account bindings and access rules. */
module Sessions {
  import opened Wrappers
  import opened TradeTypes

  datatype Permission = Full | QueryOnly | TradeOnly

  datatype SessionState = SessionState(
    clients: map<ClientId, seq<AccountId>>,
    accountStates: map<AccountId, ConnectionState>,
    subscribers: map<AccountId, seq<ClientId>>,
    rules: map<ClientId, map<AccountId, Permission>>)

  const NO_SESSIONS := SessionState(map[], map[], map[], map[])

  function WithClient(s: SessionState, c: ClientId): SessionState {
    s.(clients := s.clients[c := []])
  }

  function RulesOf(s: SessionState, c: ClientId): map<AccountId, Permission> {
    if c in s.rules then s.rules[c] else map[]
  }

  function Allow(s: SessionState, c: ClientId, a: AccountId, permission: Permission): SessionState {
    s.(rules := s.rules[c := RulesOf(s, c)[a := permission]])
  }

  function AddOnce<T(==)>(list: seq<T>, x: T): seq<T> {
    if x in list then list else list + [x]
  }

  function SubscribersOf(s: SessionState, a: AccountId): seq<ClientId> {
    if a in s.subscribers then s.subscribers[a] else []
  }

  /** A client that never said hello is still listed as a subscriber of the account. */
  function Bind(s: SessionState, c: ClientId, a: AccountId): SessionState {
    s.(clients := if c in s.clients then s.clients[c := AddOnce(s.clients[c], a)] else s.clients,
       subscribers := s.subscribers[a := AddOnce(SubscribersOf(s, a), c)])
  }

  function WithAccountState(s: SessionState, a: AccountId, state: ConnectionState): SessionState {
    s.(accountStates := s.accountStates[a := state])
  }

  function PermissionFor(s: SessionState, c: ClientId, a: AccountId): Option<Permission> {
    if a in RulesOf(s, c) then Some(RulesOf(s, c)[a]) else None
  }

  class SessionManager {
    var clients: map<ClientId, seq<AccountId>>
    var accountStates: map<AccountId, ConnectionState>
    var subscribers: map<AccountId, seq<ClientId>>
    var rules: map<ClientId, map<AccountId, Permission>>

    ghost function State(): SessionState
      reads this
    {
      SessionState(clients, accountStates, subscribers, rules)
    }

    constructor ()
      ensures State() == NO_SESSIONS
    {
      clients, accountStates, subscribers, rules := map[], map[], map[], map[];
    }

    method RegisterClient(c: ClientId)
      modifies this
      ensures State() == WithClient(old(State()), c)
    {
      clients := clients[c := []];
    }

    method AllowClientAccount(c: ClientId, a: AccountId, permission: Permission)
      modifies this
      ensures State() == Allow(old(State()), c, a, permission)
    {
      if c !in rules {
        rules := rules[c := map[]];
      }
      rules := rules[c := rules[c][a := permission]];
    }

    method BindAccount(c: ClientId, a: AccountId)
      modifies this
      ensures State() == Bind(old(State()), c, a)
    {
      if c in clients {
        if a !in clients[c] {
          clients := clients[c := clients[c] + [a]];
        }
      }
      var listed := if a in subscribers then subscribers[a] else [];
      if c !in listed {
        listed := listed + [c];
      }
      subscribers := subscribers[a := listed];
    }

    method SetAccountState(a: AccountId, state: ConnectionState)
      modifies this
      ensures State() == WithAccountState(old(State()), a, state)
    {
      accountStates := accountStates[a := state];
    }

    method GetPermission(c: ClientId, a: AccountId) returns (r: Option<Permission>)
      ensures r == PermissionFor(State(), c, a)
    {
      r := None;
      if c in rules {
        var accounts := rules[c];
        if a in accounts {
          r := Some(accounts[a]);
        }
      }
    }

    method EnsureAccountAccess(c: ClientId, a: AccountId) returns (ok: bool)
      ensures ok <==> PermissionFor(State(), c, a).Some?
    {
      var permission := GetPermission(c, a);
      ok := permission.Some?;
    }

    method EnsureReadAccess(c: ClientId, a: AccountId) returns (ok: bool)
      ensures ok <==> PermissionFor(State(), c, a) in {Some(Full), Some(QueryOnly)}
    {
      var permission := GetPermission(c, a);
      match permission
      case Some(Full) => ok := true;
      case Some(QueryOnly) => ok := true;
      case _ => ok := false;
    }

    method EnsureWriteAccess(c: ClientId, a: AccountId) returns (ok: bool)
      ensures ok <==> PermissionFor(State(), c, a) in {Some(Full), Some(TradeOnly)}
    {
      var permission := GetPermission(c, a);
      match permission
      case Some(Full) => ok := true;
      case Some(TradeOnly) => ok := true;
      case _ => ok := false;
    }
  }

  // ---- rules from configuration ----

  datatype ConfigEntry = ConfigEntry(clientId: string, accounts: seq<string>, permission: Permission)

  /** The characters of Unicode's `White_Space` property. */
  predicate IsWhitespace(c: char) {
    var n := c as int;
    9 <= n <= 13 || n == 0x20 || n == 0x85 || n == 0xA0 || n == 0x1680 || 0x2000 <= n <= 0x200A
    || n == 0x2028 || n == 0x2029 || n == 0x202F || n == 0x205F || n == 0x3000
  }

  function TrimStart(s: string): string {
    if s != [] && IsWhitespace(s[0]) then TrimStart(s[1..]) else s
  }

  function TrimEnd(s: string): string {
    if s != [] && IsWhitespace(s[|s| - 1]) then TrimEnd(s[..|s| - 1]) else s
  }

  function Trim(s: string): string {
    TrimEnd(TrimStart(s))
  }

  function AllowAll(s: SessionState, c: ClientId, accounts: seq<string>, permission: Permission): SessionState {
    if accounts == [] then s
    else Allow(AllowAll(s, c, accounts[..|accounts| - 1], permission), c, Trim(accounts[|accounts| - 1]), permission)
  }

  function FromConfig(config: seq<ConfigEntry>): SessionState {
    if config == [] then NO_SESSIONS
    else
      var last := config[|config| - 1];
      AllowAll(FromConfig(config[..|config| - 1]), Trim(last.clientId), last.accounts, last.permission)
  }

  method LoadConfig(config: seq<ConfigEntry>) returns (sessions: SessionManager)
    ensures fresh(sessions) && sessions.State() == FromConfig(config)
  {
    sessions := new SessionManager();
    for n := 0 to |config|
      invariant fresh(sessions) && sessions.State() == FromConfig(config[..n])
    {
      var entry := config[n];
      for m := 0 to |entry.accounts|
        invariant fresh(sessions)
        invariant sessions.State()
                  == AllowAll(FromConfig(config[..n]), Trim(entry.clientId), entry.accounts[..m], entry.permission)
      {
        sessions.AllowClientAccount(Trim(entry.clientId), Trim(entry.accounts[m]), entry.permission);
        assert entry.accounts[..m + 1][..m] == entry.accounts[..m];
      }
      assert entry.accounts[..|entry.accounts|] == entry.accounts;
      assert config[..n + 1][..n] == config[..n];
    }
    assert config[..|config|] == config;
  }

  predicate Lists(accounts: seq<string>, a: AccountId) {
    exists k :: 0 <= k < |accounts| && Trim(accounts[k]) == a
  }

  /** The permission of the last entry that names the client and the account, up to white space around them. */
  function LastRule(config: seq<ConfigEntry>, c: ClientId, a: AccountId): Option<Permission> {
    if config == [] then None
    else
      var last := config[|config| - 1];
      if Trim(last.clientId) == c && Lists(last.accounts, a) then Some(last.permission)
      else LastRule(config[..|config| - 1], c, a)
  }

  lemma {:induction false} AllowAllOverrides(s: SessionState, d: ClientId, accounts: seq<string>,
                                             permission: Permission, c: ClientId, a: AccountId)
    ensures PermissionFor(AllowAll(s, d, accounts, permission), c, a)
            == if d == c && Lists(accounts, a) then Some(permission) else PermissionFor(s, c, a)
  {
    if accounts != [] {
      var earlier := accounts[..|accounts| - 1];
      AllowAllOverrides(s, d, earlier, permission, c, a);
      assert Lists(accounts, a) <==> Lists(earlier, a) || Trim(accounts[|accounts| - 1]) == a;
    }
  }

  /** The rules loaded from a configuration are its last-wins reading, with white space trimmed. */
  lemma {:induction false} RulesAreLastWins(config: seq<ConfigEntry>, c: ClientId, a: AccountId)
    ensures PermissionFor(FromConfig(config), c, a) == LastRule(config, c, a)
  {
    if config != [] {
      var last := config[|config| - 1];
      RulesAreLastWins(config[..|config| - 1], c, a);
      AllowAllOverrides(FromConfig(config[..|config| - 1]), Trim(last.clientId), last.accounts, last.permission, c, a);
    }
  }

  lemma {:induction false} TrimEndIsTrimmed(s: string)
    ensures var t := TrimEnd(s);
            && TrimEnd(t) == t && t <= s && (s != [] && !IsWhitespace(s[0]) ==> t != [])
  {
    if s != [] && IsWhitespace(s[|s| - 1]) {
      TrimEndIsTrimmed(s[..|s| - 1]);
    }
  }

  lemma {:induction false} TrimStartIsTrimmed(s: string)
    ensures var t := TrimStart(s); t == [] || !IsWhitespace(t[0])
  {
    if s != [] && IsWhitespace(s[0]) {
      TrimStartIsTrimmed(s[1..]);
    }
  }

  /** Tab to carriage return, the spaces, and the two line separators. */
  lemma WhitespaceExactly(c: char)
    ensures IsWhitespace(c)
            <==> c as int in {0x09, 0x0A, 0x0B, 0x0C, 0x0D, 0x20, 0x85, 0xA0, 0x1680, 0x2000, 0x2001, 0x2002, 0x2003,
                              0x2004, 0x2005, 0x2006, 0x2007, 0x2008, 0x2009, 0x200A, 0x2028, 0x2029, 0x202F, 0x205F,
                              0x3000}
  {
  }

  ghost predicate AllWhitespace(s: string) {
    forall c | c in s :: IsWhitespace(c)
  }

  lemma {:induction false} TrimStartDrops(s: string) returns (dropped: string)
    ensures AllWhitespace(dropped) && s == dropped + TrimStart(s)
  {
    dropped := [];
    if s != [] && IsWhitespace(s[0]) {
      var rest := TrimStartDrops(s[1..]);
      dropped := [s[0]] + rest;
    }
  }

  lemma {:induction false} TrimEndDrops(s: string) returns (dropped: string)
    ensures AllWhitespace(dropped) && s == TrimEnd(s) + dropped
    ensures TrimEnd(s) == [] || !IsWhitespace(TrimEnd(s)[|TrimEnd(s)| - 1])
  {
    dropped := [];
    if s != [] && IsWhitespace(s[|s| - 1]) {
      var rest := TrimEndDrops(s[..|s| - 1]);
      dropped := rest + [s[|s| - 1]];
    }
  }

  /** Trimming drops white space on both sides, and all of it. */
  lemma TrimExactly(s: string)
    ensures exists before, after ::
              AllWhitespace(before) && AllWhitespace(after) && s == before + Trim(s) + after
    ensures Trim(s) == [] || (!IsWhitespace(Trim(s)[0]) && !IsWhitespace(Trim(s)[|Trim(s)| - 1]))
  {
    var before := TrimStartDrops(s);
    var after := TrimEndDrops(TrimStart(s));
    TrimStartIsTrimmed(s);
    TrimEndIsTrimmed(TrimStart(s));
    assert s == before + Trim(s) + after;
  }

  lemma TrimIsIdempotent(s: string)
    ensures Trim(Trim(s)) == Trim(s)
  {
    TrimStartIsTrimmed(s);
    TrimEndIsTrimmed(TrimStart(s));
  }

  /** Request ids are not trimmed: one with white space around it never has a rule. */
  lemma {:induction false} PaddedIdsHaveNoRule(config: seq<ConfigEntry>, c: ClientId, a: AccountId)
    requires Trim(c) != c || Trim(a) != a
    ensures LastRule(config, c, a).None?
  {
    if config != [] {
      PaddedIdsHaveNoRule(config[..|config| - 1], c, a);
      var last := config[|config| - 1];
      TrimIsIdempotent(last.clientId);
      forall k | 0 <= k < |last.accounts| ensures Trim(Trim(last.accounts[k])) == Trim(last.accounts[k]) {
        TrimIsIdempotent(last.accounts[k]);
      }
    }
  }

  // ---- what every sequence of registrations and bindings keeps ----

  ghost predicate Distinct<T>(list: seq<T>) {
    forall j, k | 0 <= j < k < |list| :: list[j] != list[k]
  }

  /** No list repeats; a registered client's accounts list it back; every subscription has a rule. */
  ghost predicate SessionInv(s: SessionState) {
    && (forall c | c in s.clients :: Distinct(s.clients[c]))
    && (forall a | a in s.subscribers :: Distinct(s.subscribers[a]))
    && (forall c, a | c in s.clients && a in s.clients[c] :: c in SubscribersOf(s, a))
    && (forall a, c | a in s.subscribers && c in s.subscribers[a] :: PermissionFor(s, c, a).Some?)
  }

  lemma RegisterKeepsSessions(s: SessionState, c: ClientId)
    requires SessionInv(s)
    ensures SessionInv(WithClient(s, c))
  {
    var t := WithClient(s, c);
    assert forall d, a :: PermissionFor(t, d, a) == PermissionFor(s, d, a);
    assert forall a :: SubscribersOf(t, a) == SubscribersOf(s, a);
  }

  lemma AddOnceKeepsDistinct<T>(list: seq<T>, x: T)
    requires Distinct(list)
    ensures Distinct(AddOnce(list, x)) && x in AddOnce(list, x) && forall y | y in list :: y in AddOnce(list, x)
  {
  }

  lemma BindKeepsSessions(s: SessionState, c: ClientId, a: AccountId)
    requires SessionInv(s) && PermissionFor(s, c, a).Some?
    ensures SessionInv(Bind(s, c, a))
  {
    var t := Bind(s, c, a);
    AddOnceKeepsDistinct(SubscribersOf(s, a), c);
    if c in s.clients {
      AddOnceKeepsDistinct(s.clients[c], a);
    }
    assert forall d, b :: PermissionFor(t, d, b) == PermissionFor(s, d, b);
    forall d, b | d in t.clients && b in t.clients[d] ensures d in SubscribersOf(t, b) {
      assert (d == c && b == a) || d in SubscribersOf(s, b);
      assert SubscribersOf(t, b) == if b == a then AddOnce(SubscribersOf(s, a), c) else SubscribersOf(s, b);
    }
    forall b, d | b in t.subscribers && d in t.subscribers[b] ensures PermissionFor(t, d, b).Some? {
      assert (d == c && b == a) || d in SubscribersOf(s, b);
    }
  }
}

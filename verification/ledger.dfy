/** The client lists of `main_interfaz.py`: `clientes_activos` and
    `clientes_inactivos`, each an ordered list of (full name, membership)
    pairs, and the four business operations that move clients between them
    once the menu loops have produced a valid position and tier number. */
module ClientLedger {
  import opened Options
  import opened Memberships

  datatype Client = Client(name: string, membership: Membership)

  datatype Ledger = Ledger(active: seq<Client>, inactive: seq<Client>)

  /** What identifies a client across moves: name, e-mail and card. */
  type ClientKey = (string, string, string)

  function Key(c: Client): ClientKey {
    (c.name, c.membership.email, c.membership.card)
  }

  function KeysOf(s: seq<Client>): multiset<ClientKey> {
    if s == [] then multiset{} else multiset{Key(s[0])} + KeysOf(s[1..])
  }

  /** All clients of the ledger, active or not. */
  function AllKeys(l: Ledger): multiset<ClientKey> {
    KeysOf(l.active) + KeysOf(l.inactive)
  }

  function Count(l: Ledger): nat {
    |l.active| + |l.inactive|
  }

  predicate LedgerWellFormed(l: Ledger) {
    && (forall j :: 0 <= j < |l.active| ==> WellFormed(l.active[j].membership))
    && (forall j :: 0 <= j < |l.inactive| ==> WellFormed(l.inactive[j].membership))
  }

  /** `s` without its element at `i`, the others kept in order (`del s[i]`). */
  function RemoveAt(s: seq<Client>, i: nat): (r: seq<Client>)
    requires i < |s|
    ensures |r| == |s| - 1
    ensures forall j :: 0 <= j < i ==> r[j] == s[j]
    ensures forall j :: i <= j < |r| ==> r[j] == s[j + 1]
  {
    s[..i] + s[i + 1..]
  }

  /** The tail of `registrar_cliente`: append the new client to the active
      list. */
  function Register(l: Ledger, name: string, email: string, card: string, id: int): (r: Ledger)
    requires 1 <= id <= 4
    ensures r.inactive == l.inactive
    ensures |r.active| == |l.active| + 1
    ensures r.active[..|l.active|] == l.active
    ensures r.active[|l.active|].name == name
    ensures var m := r.active[|l.active|].membership;
            TierForId(id) == Some(m.tier) && m == Fresh(m.tier, email, card)
  {
    l.(active := l.active + [Client(name, Make(id, email, card))])
  }

  /** `cambiar_membresia` of the interface: the selected active client gets
      the result of its membership's `cambiar_membresia`. That result is
      always an object, hence truthy, so the "invalid change" branch is
      never taken. */
  function ChangeClientTier(l: Ledger, i: nat, id: int): (r: Ledger)
    requires i < |l.active| && 1 <= id <= 4
    ensures r.inactive == l.inactive
    ensures |r.active| == |l.active|
    ensures forall j :: 0 <= j < |l.active| && j != i ==> r.active[j] == l.active[j]
    ensures r.active[i].name == l.active[i].name
    ensures r.active[i].membership == ChangeTier(l.active[i].membership, id)
  {
    var c := l.active[i];
    l.(active := l.active[i := Client(c.name, ChangeTier(c.membership, id))])
  }

  /** `cancelar_membresia` of the interface: the selected client leaves the
      active list and is appended, with its cancelled membership, to the
      inactive list. */
  function CancelClient(l: Ledger, i: nat): (r: Ledger)
    requires i < |l.active|
    ensures r.active == RemoveAt(l.active, i)
    ensures |r.inactive| == |l.inactive| + 1
    ensures r.inactive[..|l.inactive|] == l.inactive
    ensures r.inactive[|l.inactive|] == l.active[i]
  {
    var c := l.active[i];
    Ledger(RemoveAt(l.active, i), l.inactive + [Client(c.name, Cancel(c.membership))])
  }

  /** `reactivar_cliente`: the selected inactive client leaves the inactive
      list and is appended to the active list with a fresh membership of
      the chosen tier, whatever its previous tier was. */
  function Reactivate(l: Ledger, i: nat, id: int): (r: Ledger)
    requires i < |l.inactive| && 1 <= id <= 4
    ensures r.inactive == RemoveAt(l.inactive, i)
    ensures |r.active| == |l.active| + 1
    ensures r.active[..|l.active|] == l.active
    ensures r.active[|l.active|].name == l.inactive[i].name
    ensures var old_m := l.inactive[i].membership;
            var m := r.active[|l.active|].membership;
            TierForId(id) == Some(m.tier) && m == Fresh(m.tier, old_m.email, old_m.card)
  {
    var c := l.inactive[i];
    Ledger(l.active + [Client(c.name, Make(id, c.membership.email, c.membership.card))], RemoveAt(l.inactive, i))
  }

  // ---------------------------------------------------------------------
  // Conservation of clients.
  // ---------------------------------------------------------------------

  lemma {:induction false} KeysOfAppend(a: seq<Client>, b: seq<Client>)
    ensures KeysOf(a + b) == KeysOf(a) + KeysOf(b)
  {
    if a != [] {
      assert (a + b)[1..] == a[1..] + b;
      KeysOfAppend(a[1..], b);
    } else {
      assert a + b == b;
    }
  }

  lemma KeysOfSingle(c: Client)
    ensures KeysOf([c]) == multiset{Key(c)}
  {
    assert [c][1..] == [];
  }

  lemma KeysOfRemoveAt(s: seq<Client>, i: nat)
    requires i < |s|
    ensures KeysOf(s) == KeysOf(RemoveAt(s, i)) + multiset{Key(s[i])}
  {
    var a, x, b := s[..i], s[i], s[i + 1..];
    assert s == a + ([x] + b);
    assert RemoveAt(s, i) == a + b;
    KeysOfAppend(a, [x] + b);
    KeysOfAppend([x], b);
    KeysOfSingle(x);
    KeysOfAppend(a, b);
  }

  lemma KeysOfUpdate(s: seq<Client>, i: nat, c: Client)
    requires i < |s| && Key(c) == Key(s[i])
    ensures KeysOf(s[i := c]) == KeysOf(s)
  {
    KeysOfRemoveAt(s, i);
    KeysOfRemoveAt(s[i := c], i);
    assert RemoveAt(s[i := c], i) == RemoveAt(s, i);
  }

  /** Registering adds exactly the new client. */
  lemma RegisterAddsOne(l: Ledger, name: string, email: string, card: string, id: int)
    requires 1 <= id <= 4
    ensures AllKeys(Register(l, name, email, card, id)) == AllKeys(l) + multiset{(name, email, card)}
    ensures Count(Register(l, name, email, card, id)) == Count(l) + 1
  {
    var c := Client(name, Make(id, email, card));
    KeysOfAppend(l.active, [c]);
    KeysOfSingle(c);
  }

  /** Changing a tier keeps the clients, as the change keeps e-mail and card. */
  lemma ChangeKeepsClients(l: Ledger, i: nat, id: int)
    requires i < |l.active| && 1 <= id <= 4
    ensures AllKeys(ChangeClientTier(l, i, id)) == AllKeys(l)
    ensures Count(ChangeClientTier(l, i, id)) == Count(l)
  {
    var c := l.active[i];
    KeysOfUpdate(l.active, i, Client(c.name, ChangeTier(c.membership, id)));
  }

  /** Cancelling moves one client from the active to the inactive list and
      loses nobody. */
  lemma CancelKeepsClients(l: Ledger, i: nat)
    requires i < |l.active|
    ensures AllKeys(CancelClient(l, i)) == AllKeys(l)
    ensures Count(CancelClient(l, i)) == Count(l)
    ensures |CancelClient(l, i).active| == |l.active| - 1
  {
    var c := l.active[i];
    KeysOfRemoveAt(l.active, i);
    KeysOfAppend(l.inactive, [c]);
    KeysOfSingle(c);
  }

  /** Reactivating moves one client from the inactive to the active list
      and loses nobody. */
  lemma ReactivateKeepsClients(l: Ledger, i: nat, id: int)
    requires i < |l.inactive| && 1 <= id <= 4
    ensures AllKeys(Reactivate(l, i, id)) == AllKeys(l)
    ensures Count(Reactivate(l, i, id)) == Count(l)
    ensures |Reactivate(l, i, id).inactive| == |l.inactive| - 1
  {
    var c := l.inactive[i];
    var n := Client(c.name, Make(id, c.membership.email, c.membership.card));
    KeysOfRemoveAt(l.inactive, i);
    KeysOfAppend(l.active, [n]);
    KeysOfSingle(n);
  }

  /** Every operation keeps all memberships of the ledger well formed. */
  lemma OperationsPreserveWellFormed(l: Ledger, i: nat, id: int, name: string, email: string, card: string)
    requires LedgerWellFormed(l) && 1 <= id <= 4
    ensures LedgerWellFormed(Register(l, name, email, card, id))
    ensures i < |l.active| ==> LedgerWellFormed(ChangeClientTier(l, i, id))
    ensures i < |l.active| ==> LedgerWellFormed(CancelClient(l, i))
    ensures i < |l.inactive| ==> LedgerWellFormed(Reactivate(l, i, id))
  {
    if i < |l.active| {
      TransitionsPreserveWellFormed(l.active[i].membership, id);
    }
  }

  /** Reactivation may pick any tier, even one `ChangeTier` would refuse:
      an inactive Pro client can come back as Pro. */
  lemma ReactivateIgnoresTable(l: Ledger, i: nat)
    requires i < |l.inactive| && l.inactive[i].membership.tier == Pro
    ensures !Allowed(Pro, 4)
    ensures ChangeTier(l.inactive[i].membership, 4) == l.inactive[i].membership
    ensures Reactivate(l, i, 4).active[|l.active|].membership.tier == Pro
  {
  }

  /** Register a Pro client, cancel it, reactivate it as SinConexión. The
      cancelled client keeps its Pro membership in the inactive list, since
      cancellation returns the membership unchanged. */
  lemma EndToEnd(email: string, card: string)
    ensures var l1 := Register(Ledger([], []), "Ana  Rojas ", email, card, 4);
            var l2 := CancelClient(l1, 0);
            var l3 := Reactivate(l2, 0, 3);
            && |l1.active| == 1 && l1.inactive == []
            && l1.active[0].membership.tier == Pro
            && Devices(l1.active[0].membership.tier) == 6
            && l1.active[0].membership.giftDays == Some(15)
            && l2.active == [] && |l2.inactive| == 1
            && l2.inactive[0].membership.tier == Pro
            && l3.inactive == [] && |l3.active| == 1
            && l3.active[0].membership.tier == Offline
            && l3.active[0].membership.offlineContent == Some(0)
            && l3.active[0].membership.email == email
            && l3.active[0].membership.card == card
  {
    FreshExtras(email, card);
  }
}

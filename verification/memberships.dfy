/** The membership tiers of the streaming service and the transitions between
    them (`membresia.py`). The class hierarchy becomes one tagged record: the
    tier says which class a membership is an instance of, and the optional
    fields hold the attributes only some classes set in their initialiser. */
module Memberships {
  import opened Options

  /** Gratis, Basica, Familiar, SinConexión and Pro. */
  datatype Tier = Free | Basic | Family | Offline | Pro

  /** An instance of one of the five classes. `giftDays` is `_dias_regalo`
      and `offlineContent` is `_contenido_sin_conexion`; `None` means the
      instance has no such attribute. */
  datatype Membership = Membership(
    tier: Tier,
    email: string,
    card: string,
    giftDays: Option<int>,
    offlineContent: Option<int>)

  /** The class constant `_costo`. */
  function Cost(t: Tier): nat {
    match t
    case Free => 0
    case Basic => 3000
    case Family => 5000
    case Offline => 3500
    case Pro => 7000
  }

  /** The class constant `_dispositivos`. */
  function Devices(t: Tier): nat {
    match t
    case Free => 1
    case Basic => 2
    case Family => 5
    case Offline => 2
    case Pro => 6
  }

  /** Classes that inherit from Familiar or SinConexión carry gift days. */
  predicate HasGiftDays(t: Tier) {
    t == Family || t == Offline || t == Pro
  }

  /** Classes that inherit from SinConexión count offline content and offer
      `incrementar_contenido_sin_conexion`. */
  predicate HasOfflineContent(t: Tier) {
    t == Offline || t == Pro
  }

  /** The attributes an instance has are the ones its class hierarchy sets. */
  predicate WellFormed(m: Membership) {
    && (m.giftDays.Some? <==> HasGiftDays(m.tier))
    && (m.offlineContent.Some? <==> HasOfflineContent(m.tier))
  }

  /** The numeric menu identifier of a target tier: 1 Basic, 2 Family,
      3 Offline, 4 Pro. Every other number names no tier (Free has none). */
  function TierForId(id: int): (r: Option<Tier>)
    ensures r.Some? <==> 1 <= id <= 4
    ensures r != Some(Free)
  {
    if id == 1 then Some(Basic)
    else if id == 2 then Some(Family)
    else if id == 3 then Some(Offline)
    else if id == 4 then Some(Pro)
    else None
  }

  /** The identifier of a paid tier, inverse of `TierForId`. */
  function IdOf(t: Tier): (id: int)
    requires t != Free
    ensures 1 <= id <= 4
  {
    match t
    case Basic => 1
    case Family => 2
    case Offline => 3
    case Pro => 4
  }

  /** The numbering of the tier menu. */
  lemma TierIds()
    ensures TierForId(1) == Some(Basic) && TierForId(2) == Some(Family)
    ensures TierForId(3) == Some(Offline) && TierForId(4) == Some(Pro)
  {
  }

  lemma IdRoundTrip(t: Tier, id: int)
    ensures t != Free ==> TierForId(IdOf(t)) == Some(t)
    ensures 1 <= id <= 4 ==> IdOf(TierForId(id).value) == id
  {
  }

  // ---------------------------------------------------------------------
  // Construction. Every `__init__` first runs the initialiser next in the
  // method resolution order and then assigns its own attributes, so the
  // attributes of a fresh instance are those of the last write along the
  // chain. Pro's order is Pro, Familiar, SinConexión, Membresia.
  // ---------------------------------------------------------------------

  datatype Extras = Extras(giftDays: Option<int>, offlineContent: Option<int>)

  /** The classes whose `__init__` runs when an instance of `t` is built, in
      method resolution order, without the root class. */
  function InitChain(t: Tier): seq<Tier> {
    if t == Pro then [Pro, Family, Offline] else [t]
  }

  /** The assignments a class's own `__init__` makes after its super call. */
  function OwnInit(t: Tier, e: Extras): Extras {
    match t
    case Free => e
    case Basic => e
    case Family => e.(giftDays := Some(7))
    case Offline => Extras(Some(7), Some(0))
    case Pro => e.(giftDays := Some(15))
  }

  /** Running the initialisers of `chain`, each after the ones that follow it. */
  function RunInits(chain: seq<Tier>): Extras {
    if chain == [] then Extras(None, None)
    else OwnInit(chain[0], RunInits(chain[1..]))
  }

  /** What the initialiser chain of each class leaves behind. */
  lemma InitChainExtras(t: Tier)
    ensures RunInits(InitChain(t)) ==
      match t
      case Free => Extras(None, None)
      case Basic => Extras(None, None)
      case Family => Extras(Some(7), None)
      case Offline => Extras(Some(7), Some(0))
      case Pro => Extras(Some(15), Some(0))
  {
    if t == Pro {
      var afterOffline := RunInits([Offline]);
      assert [Family, Offline][1..] == [Offline];
      assert [Pro, Family, Offline][1..] == [Family, Offline];
      assert RunInits([Family, Offline]) == afterOffline.(giftDays := Some(7));
    }
  }

  /** A freshly constructed instance of class `t`. */
  function Fresh(t: Tier, email: string, card: string): (r: Membership)
    ensures r.tier == t && r.email == email && r.card == card
    ensures WellFormed(r)
  {
    InitChainExtras(t);
    var e := RunInits(InitChain(t));
    Membership(t, email, card, e.giftDays, e.offlineContent)
  }

  /** The initial gift days and offline counter of each class; Pro's come out
      of the diamond: 15 gift days from its own initialiser and an offline
      counter of 0 set by SinConexión. */
  lemma FreshExtras(email: string, card: string)
    ensures Fresh(Family, email, card).giftDays == Some(7)
    ensures Fresh(Offline, email, card).giftDays == Some(7)
    ensures Fresh(Offline, email, card).offlineContent == Some(0)
    ensures Fresh(Pro, email, card).giftDays == Some(15)
    ensures Fresh(Pro, email, card).offlineContent == Some(0)
    ensures Fresh(Basic, email, card).giftDays.None?
    ensures Fresh(Free, email, card).offlineContent.None?
  {
    InitChainExtras(Family);
    InitChainExtras(Offline);
    InitChainExtras(Pro);
  }

  /** The explicit constructor dispatch used when registering or
      reactivating a client, once the tier number lies in 1..4. */
  function Make(id: int, email: string, card: string): (r: Membership)
    requires 1 <= id <= 4
    ensures TierForId(id) == Some(r.tier)
    ensures r == Fresh(r.tier, email, card)
  {
    if id == 1 then Fresh(Basic, email, card)
    else if id == 2 then Fresh(Family, email, card)
    else if id == 3 then Fresh(Offline, email, card)
    else Fresh(Pro, email, card)
  }

  /** `_crear_nueva_membresia`: a fresh instance of the numbered tier keeping
      email and card, and the receiver itself for any other number (0
      included). */
  function Recreate(m: Membership, id: int): (r: Membership)
    ensures r.email == m.email && r.card == m.card
    ensures 1 <= id <= 4 ==> TierForId(id) == Some(r.tier) && r == Fresh(r.tier, m.email, m.card)
    ensures !(1 <= id <= 4) ==> r == m
  {
    if id == 1 then Fresh(Basic, m.email, m.card)
    else if id == 2 then Fresh(Family, m.email, m.card)
    else if id == 3 then Fresh(Offline, m.email, m.card)
    else if id == 4 then Fresh(Pro, m.email, m.card)
    else m
  }

  /** Registration, reactivation and tier change all build the new
      membership the same way. */
  lemma MakeIsRecreate(m: Membership, id: int)
    requires 1 <= id <= 4
    ensures Make(id, m.email, m.card) == Recreate(m, id)
  {
  }

  // ---------------------------------------------------------------------
  // Transitions.
  // ---------------------------------------------------------------------

  /** The guard each class's `cambiar_membresia` puts on the target number. */
  predicate Allowed(t: Tier, id: int) {
    match t
    case Free => 1 <= id <= 4
    case Basic => 2 <= id <= 4
    case Family => id in [1, 3, 4]
    case Offline => id in [1, 2, 4]
    case Pro => 1 <= id <= 3
  }

  /** The transition table in one sentence: every paid tier other than the
      current one may be chosen, and nothing else. */
  lemma AllowedIff(t: Tier, id: int)
    ensures Allowed(t, id) <==> TierForId(id).Some? && TierForId(id) != Some(t)
  {
  }

  /** The allowed target numbers of each tier, as sets. */
  lemma AllowedTargets()
    ensures (set id | 0 <= id <= 5 && Allowed(Free, id)) == {1, 2, 3, 4}
    ensures (set id | 0 <= id <= 5 && Allowed(Basic, id)) == {2, 3, 4}
    ensures (set id | 0 <= id <= 5 && Allowed(Family, id)) == {1, 3, 4}
    ensures (set id | 0 <= id <= 5 && Allowed(Offline, id)) == {1, 2, 4}
    ensures (set id | 0 <= id <= 5 && Allowed(Pro, id)) == {1, 2, 3}
  {
  }

  /** `cambiar_membresia`: an allowed target yields a fresh membership of
      that tier, anything else yields the receiver unchanged. */
  function ChangeTier(m: Membership, id: int): (r: Membership)
    ensures r.email == m.email && r.card == m.card
    ensures Allowed(m.tier, id) ==>
      TierForId(id) == Some(r.tier) && r.tier != m.tier && r == Fresh(r.tier, m.email, m.card)
    ensures !Allowed(m.tier, id) ==> r == m
    ensures r.tier == Free ==> r == m
  {
    if Allowed(m.tier, id) then Recreate(m, id) else m
  }

  /** A change lands in the requested tier exactly when the table allows it
      or the membership already is in that tier. */
  lemma ChangeTierReachesTarget(m: Membership, id: int)
    requires 1 <= id <= 4
    ensures Some(ChangeTier(m, id).tier) == TierForId(id)
        <==> Allowed(m.tier, id) || TierForId(id) == Some(m.tier)
  {
  }

  /** `cancelar_membresia`: Gratis returns itself; every paid class calls
      `_crear_nueva_membresia(0)`, which has no branch for 0 and returns the
      receiver. Cancelling therefore never produces a free membership. */
  function Cancel(m: Membership): (r: Membership)
    ensures r == m
  {
    if m.tier == Free then m else Recreate(m, 0)
  }

  lemma CancelIdempotent(m: Membership)
    ensures Cancel(Cancel(m)) == Cancel(m)
    ensures Cancel(m).tier == Free <==> m.tier == Free
  {
  }

  /** `incrementar_contenido_sin_conexion`, defined on SinConexión and
      inherited by Pro only. */
  function IncrementOffline(m: Membership): (r: Membership)
    requires WellFormed(m) && HasOfflineContent(m.tier)
    ensures WellFormed(r)
    ensures r.offlineContent == Some(m.offlineContent.value + 1)
    ensures r.tier == m.tier && r.email == m.email && r.card == m.card
    ensures r.giftDays == m.giftDays
  {
    m.(offlineContent := Some(m.offlineContent.value + 1))
  }

  /** Two increments on a fresh SinConexión or Pro leave the counter at 2. */
  lemma IncrementTwiceFromFresh(t: Tier, email: string, card: string)
    requires HasOfflineContent(t)
    ensures IncrementOffline(IncrementOffline(Fresh(t, email, card))).offlineContent == Some(2)
  {
    FreshExtras(email, card);
  }

  /** Every transition keeps a membership well formed. */
  lemma TransitionsPreserveWellFormed(m: Membership, id: int)
    requires WellFormed(m)
    ensures WellFormed(ChangeTier(m, id))
    ensures WellFormed(Cancel(m))
  {
  }

  /** The price list: cost and number of devices of every tier. */
  lemma PriceList()
    ensures Cost(Free) == 0 && Devices(Free) == 1
    ensures Cost(Basic) == 3000 && Devices(Basic) == 2
    ensures Cost(Family) == 5000 && Devices(Family) == 5
    ensures Cost(Offline) == 3500 && Devices(Offline) == 2
    ensures Cost(Pro) == 7000 && Devices(Pro) == 6
  {
  }
}

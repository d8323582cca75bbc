/**
 Session reservations: each checkout reserves its id against a link before the
 payment, and the reconciler later resolves the link by the id.  The column is a
 BIGINT, so the upper half of the u64 range can be paid under but never reserved.
 */
module Sessions {
  import opened Common
  import opened ClaimEncoding
  import opened ReconcilerOps
  import Payments

  datatype Link = Link(merchant: nat, active: bool)

  /** The unique key of link_sessions. */
  datatype Key = Key(merchant: nat, muxedId: int)

  datatype ReserveResult = Reserved | LinkNotFound | LinkNotActive | AlreadyReserved | OutOfRange

  /** A reservation request, with the link row as the service read it. */
  datatype Request = Request(linkId: nat, link: Option<Link>, muxedId: nat)

  function ReserveOutcome(sessions: map<Key, nat>, r: Request): ReserveResult {
    if r.link.None? then LinkNotFound
    else if !r.link.value.active then LinkNotActive
    else if r.muxedId >= TWO_63 then OutOfRange
    else if Key(r.link.value.merchant, r.muxedId) in sessions then AlreadyReserved
    else Reserved
  }

  /** What a request is answered, exactly; only a free id, within the column, of an active link is reserved. */
  lemma ReserveAnswers(sessions: map<Key, nat>, r: Request)
    ensures var answer := ReserveOutcome(sessions, r);
            && (answer == LinkNotFound <==> r.link.None?)
            && (answer == LinkNotActive <==> r.link.Some? && !r.link.value.active)
            && (answer == OutOfRange <==> r.link.Some? && r.link.value.active && r.muxedId > 0x7FFF_FFFF_FFFF_FFFF)
            && (answer == AlreadyReserved <==>
                  && r.link.Some? && r.link.value.active && r.muxedId <= 0x7FFF_FFFF_FFFF_FFFF
                  && Key(r.link.value.merchant, r.muxedId) in sessions)
            && (answer == Reserved <==>
                  && r.link.Some? && r.link.value.active && r.muxedId <= 0x7FFF_FFFF_FFFF_FFFF
                  && Key(r.link.value.merchant, r.muxedId) !in sessions)
  {
  }

  function ReserveStep(sessions: map<Key, nat>, r: Request): map<Key, nat> {
    if ReserveOutcome(sessions, r).Reserved?
    then sessions[Key(r.link.value.merchant, r.muxedId) := r.linkId] else sessions
  }

  /** The table after any sequence of requests. */
  function Reservations(requests: seq<Request>): map<Key, nat> {
    if requests == [] then map[] else ReserveStep(Reservations(requests[..|requests| - 1]), requests[|requests| - 1])
  }

  /** The reconciler's lookup for a payment under the u64 id. */
  function ResolveLink(sessions: map<Key, nat>, merchant: nat, id: U64): Option<nat> {
    var key := Key(merchant, AsI64(id));
    if key in sessions then Some(sessions[key]) else None
  }

  /** Request `r` asks for exactly this merchant's id, through an active link, within the column's range. */
  predicate Reserves(r: Request, merchant: nat, id: U64) {
    r.link == Some(Link(merchant, true)) && r.muxedId == id && id < TWO_63
  }

  /** The first request that reserves the id owns it. */
  predicate Owner(requests: seq<Request>, merchant: nat, id: U64, k: nat) {
    && k < |requests| && Reserves(requests[k], merchant, id)
    && forall j | 0 <= j < k :: !Reserves(requests[j], merchant, id)
  }

  lemma {:induction false} OnlyReservedKeys(requests: seq<Request>, key: Key)
    requires key in Reservations(requests)
    ensures 0 <= key.muxedId < TWO_63
  {
    if key !in Reservations(requests[..|requests| - 1]) {
      assert key.muxedId == requests[|requests| - 1].muxedId;
    } else {
      OnlyReservedKeys(requests[..|requests| - 1], key);
    }
  }

  /**
   After any requests, a payment's link is that of the first request that reserved its very id for its
   merchant, and NULL when there is none.
   */
  lemma {:induction false} ResolvesToItsReserver(requests: seq<Request>, merchant: nat, id: U64) returns (k: nat)
    ensures var link := ResolveLink(Reservations(requests), merchant, id);
            if link.Some? then Owner(requests, merchant, id, k) && requests[k].linkId == link.value
            else forall j | 0 <= j < |requests| :: !Reserves(requests[j], merchant, id)
  {
    k := 0;
    if requests != [] {
      var n := |requests| - 1;
      var before := requests[..n];
      k := ResolvesToItsReserver(before, merchant, id);
      assert forall j | 0 <= j < n :: requests[j] == before[j];
      WrapIsInjective(id, id);
      if ResolveLink(Reservations(before), merchant, id).None? {
        if Reserves(requests[n], merchant, id) {
          k := n;
        } else if Key(merchant, AsI64(id)) in Reservations(requests) {
          OnlyReservedKeys(requests, Key(merchant, AsI64(id)));
        }
      }
    }
  }

  /** Ids of 2^63 and above resolve to no link at all, although their payments are recorded under a wrapped id. */
  lemma UpperIdsResolveToNothing(requests: seq<Request>, merchant: nat, id: U64)
    requires id >= TWO_63
    ensures ResolveLink(Reservations(requests), merchant, id) == None
  {
    if Key(merchant, AsI64(id)) in Reservations(requests) {
      OnlyReservedKeys(requests, Key(merchant, AsI64(id)));
    }
  }

  /** The lookup answers from the table the requests left. */
  ghost predicate LooksUp(sessions: int -> Option<nat>, requests: seq<Request>, merchant: nat) {
    forall id: U64 :: sessions(AsI64(id)) == ResolveLink(Reservations(requests), merchant, id)
  }

  /** The row of a payment under session `id`: the id wrapped, and the link of its first reserver, request `k`. */
  predicate LinkedTo(row: Payments.Payment, requests: seq<Request>, merchant: nat, id: U64, k: nat) {
    && row.muxedId == AsI64(id)
    && (if row.link.Some? then Owner(requests, merchant, id, k) && requests[k].linkId == row.link.value
        else forall j | 0 <= j < |requests| :: !Reserves(requests[j], merchant, id))
    && (id >= TWO_63 ==> row.link == None)
  }

  /** A recorded payment's row carries the link of its own reserver, or none. */
  lemma RecordedLinkIsItsReservers(
      decode: Decoder, ctx: Payments.Ctx, ps: seq<Payments.Payment>, op: Op, requests: seq<Request>, merchant: nat)
    returns (k: nat)
    requires LooksUp(ctx.sessions, requests, merchant)
    requires Matchable(decode, op) && Payments.RecordIfNew(decode, ctx, ps, op).Inserted?
    ensures LinkedTo(Payments.RecordIfNew(decode, ctx, ps, op).payments[|ps|],
                     requests, merchant, SessionId(decode, op).value, k)
  {
    var id := SessionId(decode, op).value;
    k := ResolvesToItsReserver(requests, merchant, id);
    if id >= TWO_63 {
      UpperIdsResolveToNothing(requests, merchant, id);
    }
  }

  class SessionsService {
    var links: map<nat, Link>
    var sessions: map<Key, nat>

    constructor (links: map<nat, Link>)
      ensures this.links == links && sessions == map[]
    {
      this.links, this.sessions := links, map[];
    }

    /** One round trip to the link, one insert; the unique key is never overwritten. */
    method Reserve(linkId: nat, muxedId: nat) returns (result: ReserveResult)
      modifies this`sessions
      ensures var r := Request(linkId, if linkId in links then Some(links[linkId]) else None, muxedId);
              result == ReserveOutcome(old(sessions), r) && sessions == ReserveStep(old(sessions), r)
      ensures forall key | key in old(sessions) :: key in sessions && sessions[key] == old(sessions)[key]
    {
      if linkId !in links {
        return LinkNotFound;
      }
      if !links[linkId].active {
        return LinkNotActive;
      }
      if muxedId >= TWO_63 {
        return OutOfRange;
      }
      var key := Key(links[linkId].merchant, muxedId);
      if key in sessions {
        return AlreadyReserved;
      }
      sessions := sessions[key := linkId];
      return Reserved;
    }
  }
}

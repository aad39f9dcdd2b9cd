/**
 Single-use tickets: a map of spent tickets that is swept of expired ones on every
 call, and answers for unexpired tickets as a record that never forgets would.
 */
module SpentTickets {
  /** A ticket carries its own expiry, so the same ticket always expires at the same time. */
  datatype Ticket = Ticket(serial: nat, expires: int)

  /** One presentation of a ticket. */
  datatype Spend = Spend(ticket: Ticket, at: int)

  function Swept(spent: map<Ticket, int>, now: int): map<Ticket, int> {
    map k | k in spent && now <= spent[k] :: spent[k]
  }

  /** spendGrafanaTicket */
  function Answer(spent: map<Ticket, int>, s: Spend): bool {
    s.ticket !in Swept(spent, s.at)
  }

  function After(spent: map<Ticket, int>, s: Spend): map<Ticket, int> {
    var swept := Swept(spent, s.at);
    if s.ticket in swept then swept else swept[s.ticket := s.ticket.expires]
  }

  function Run(spends: seq<Spend>): map<Ticket, int> {
    if spends == [] then map[] else After(Run(spends[..|spends| - 1]), spends[|spends| - 1])
  }

  ghost predicate InOrder(spends: seq<Spend>) {
    forall i, j :: 0 <= i < j < |spends| ==> spends[i].at <= spends[j].at
  }

  /** The record that never forgets: has this ticket been presented before? */
  ghost predicate Presented(spends: seq<Spend>, ticket: Ticket) {
    exists i :: 0 <= i < |spends| && spends[i].ticket == ticket
  }

  /** A ticket is in the map if it was presented and has not expired; an expired one only until the next sweep. */
  lemma {:induction false} MapRemembers(spends: seq<Spend>, ticket: Ticket)
    requires InOrder(spends)
    ensures ticket in Run(spends) ==> Presented(spends, ticket) && Run(spends)[ticket] == ticket.expires
    ensures Presented(spends, ticket) && (spends != [] ==> spends[|spends| - 1].at <= ticket.expires) ==> ticket in Run(spends)
  {
    if spends != [] {
      var n := |spends| - 1;
      var before := spends[..n];
      MapRemembers(before, ticket);
      if Presented(before, ticket) {
        var i :| 0 <= i < n && before[i].ticket == ticket;
        assert spends[i].ticket == ticket;
      }
      if Presented(spends, ticket) && spends[n].ticket != ticket {
        var i :| 0 <= i < |spends| && spends[i].ticket == ticket;
        assert before[i].ticket == ticket;
      }
      if before != [] {
        assert before[|before| - 1].at <= spends[n].at;
      }
    }
  }

  /**
   The swept map answers exactly as the record that never forgets, except for a ticket
   presented again after it expired, which it has forgotten.
   */
  lemma SweptAnswersExactly(spends: seq<Spend>, s: Spend)
    requires InOrder(spends + [s])
    ensures Answer(Run(spends), s) <==> !Presented(spends, s.ticket) || s.at > s.ticket.expires
  {
    var all := spends + [s];
    assert forall i :: 0 <= i < |spends| ==> all[i] == spends[i];
    assert InOrder(spends) by {
      forall i, j | 0 <= i < j < |spends| ensures spends[i].at <= spends[j].at {
        assert all[i].at <= all[j].at;
      }
    }
    MapRemembers(spends, s.ticket);
    if spends != [] {
      assert all[|spends| - 1].at <= all[|spends|].at;
    }
  }

  /** A ticket presented at or before its expiry is accepted at most once. */
  lemma AcceptedOnce(spends: seq<Spend>, i: nat, j: nat)
    requires InOrder(spends) && i < j < |spends| && spends[i].ticket == spends[j].ticket
    requires spends[j].at <= spends[j].ticket.expires
    ensures !Answer(Run(spends[..j]), spends[j])
  {
    var before := spends[..j];
    assert before + [spends[j]] == spends[..j + 1];
    assert InOrder(before + [spends[j]]);
    assert before[i].ticket == spends[j].ticket;
    SweptAnswersExactly(before, spends[j]);
  }

  /** Every entry left after a call is unexpired, or the one just added. */
  lemma SweepKeepsNothingOld(spent: map<Ticket, int>, s: Spend, k: Ticket)
    requires k in After(spent, s)
    ensures After(spent, s)[k] >= s.at || k == s.ticket
  {
  }

  class TicketBook {
    var spent: map<Ticket, int>

    /** spendGrafanaTicket: sweep under the lock, then look, then remember. */
    method SpendTicket(ticket: Ticket, now: int) returns (unspent: bool)
      modifies this
      ensures unspent == Answer(old(spent), Spend(ticket, now))
      ensures spent == After(old(spent), Spend(ticket, now))
    {
      var unseen := spent.Keys;
      while unseen != {}
        invariant unseen <= spent.Keys <= old(spent).Keys
        invariant forall k :: k in spent ==> spent[k] == old(spent)[k]
        invariant forall k :: k in old(spent) && k !in unseen ==> (k in spent <==> now <= old(spent)[k])
        decreases |unseen|
      {
        var k :| k in unseen;
        unseen := unseen - {k};
        if now > spent[k] {
          spent := spent - {k};
        }
      }
      assert spent == Swept(old(spent), now);
      if ticket in spent {
        return false;
      }
      spent := spent[ticket := ticket.expires];
      unspent := true;
    }
  }
}

/**
 Quota isolation between whole runs.

 Two gateways, with different configurations, clients, failures and crashes, that have
 booked the same records of one quota scope decide alike in it from then on.
 */
module Isolation {
  import opened Wrappers
  import opened Calendar
  import opened Tables
  import opened Ledger
  import opened Apml
  import opened Quota
  import Pipeline
  import Gateway

  /** A committed record and the time it was stamped with. */
  datatype Booking = Booking(rec: Record, stamp: Stamp)

  /** What a history of settled records has booked for one scope, in commit order. */
  function ScopeBookings(os: seq<Pipeline.Outcome>, mode: string, key: string, route: string): seq<Booking> {
    if os == [] then []
    else
      var before, last := ScopeBookings(os[..|os| - 1], mode, key, route), os[|os| - 1];
      var rec := last.item.rec;
      if last.fate.Committed? && rec.routePath == route && (mode == "shared" || rec.localKey == key)
      then before + [Booking(rec, last.fate.stamp)] else before
  }

  /** What a booking contributes to a cache; its place in the whole log is not part of it. */
  function BookingEntry(b: Booking, g: Grain): CacheRow {
    Entry(RowOf(b.rec, b.stamp, []), g)
  }

  function BookingEntries(bs: seq<Booking>, g: Grain): seq<CacheRow> {
    seq(|bs|, i requires 0 <= i < |bs| => BookingEntry(bs[i], g))
  }

  lemma BookingAppend(bs: seq<Booking>, b: Booking, g: Grain)
    ensures BookingEntries(bs + [b], g) == BookingEntries(bs, g) + [BookingEntry(b, g)]
  {
    hide BookingEntry;
  }

  /** The scope's rows in the log are the scope's bookings, ids aside. */
  lemma {:induction false} RowsAreBookings(
    os: seq<Pipeline.Outcome>, mode: string, key: string, route: string, g: Grain)
    ensures Entries(ScopeRows(Pipeline.ExpectedLogs(os), mode, key, route), g) ==
            BookingEntries(ScopeBookings(os, mode, key, route), g)
  {
    if os != [] {
      var init, last := os[..|os| - 1], os[|os| - 1];
      RowsAreBookings(init, mode, key, route, g);
      if last.fate.Committed? {
        var logs, rec, b := Pipeline.ExpectedLogs(init), last.item.rec, Booking(last.item.rec, last.fate.stamp);
        var row := RowOf(rec, b.stamp, logs);
        ScopeAppend(logs, row, mode, key, route);
        EntriesAppend(ScopeRows(logs, mode, key, route), row, g);
        BookingAppend(ScopeBookings(init, mode, key, route), b, g);
        hide Label, Entries, BookingEntries, ScopeRows;
        assert Entry(row, g) == BookingEntry(b, g);
      }
    }
  }

  lemma SameBookingsAgree(a: seq<Pipeline.Outcome>, b: seq<Pipeline.Outcome>, mode: string, key: string, route: string)
    requires ScopeBookings(a, mode, key, route) == ScopeBookings(b, mode, key, route)
    ensures AgreeOnScope(Pipeline.ExpectedLogs(a), Pipeline.ExpectedLogs(b), mode, key, route)
  {
    hide ScopeBookings, ScopeRows, BookingEntries, Entries, Pipeline.ExpectedLogs;
    forall g
      ensures Entries(ScopeRows(Pipeline.ExpectedLogs(a), mode, key, route), g) ==
              Entries(ScopeRows(Pipeline.ExpectedLogs(b), mode, key, route), g) {
      RowsAreBookings(a, mode, key, route, g);
      RowsAreBookings(b, mode, key, route, g);
    }
  }

  /** The tables of a reachable gateway state are those its history of settled records should have left. */
  lemma ReachableTables(setup: Gateway.Setup, ss: seq<Gateway.State>, n: nat)
    requires Gateway.Run(setup, ss) && n < |ss|
    ensures CacheAgrees(ss[n].pipe.db)
    ensures ss[n].pipe.db.logs == Pipeline.ExpectedLogs(ss[n].pipe.outcomes)
  {
    Gateway.RunInv(setup, ss, n);
    hide Gateway.Run;
  }

  /**
   In two runs that have booked the same records of a scope, a check in the scope gives the
   same result, whatever else either run has emitted, dropped, failed, lost or booked.
   */
  lemma RunsIsolated(
    setupA: Gateway.Setup, a: seq<Gateway.State>, n: nat, setupB: Gateway.Setup, b: seq<Gateway.State>, m: nat,
    q: QuotaDetail, key: string, route: string, estimated: int, today: Date)
    requires Gateway.Run(setupA, a) && n < |a| && Gateway.Run(setupB, b) && m < |b|
    requires ScopeBookings(a[n].pipe.outcomes, q.mode, key, route) ==
             ScopeBookings(b[m].pipe.outcomes, q.mode, key, route)
    ensures CheckAt(a[n].pipe.db, q, key, route, estimated, today) ==
            CheckAt(b[m].pipe.db, q, key, route, estimated, today)
  {
    ReachableTables(setupA, a, n);
    ReachableTables(setupB, b, m);
    hide Gateway.Run, ScopeBookings, CacheAgrees, CheckAt, AgreeOnScope, Pipeline.ExpectedLogs;
    SameBookingsAgree(a[n].pipe.outcomes, b[m].pipe.outcomes, q.mode, key, route);
    QuotaIsolation(a[n].pipe.db, b[m].pipe.db, q, key, route, estimated, today);
  }
}

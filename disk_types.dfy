/**
 The values the disk-head simulator works with: the requests it serves, the
 record it keeps of each serving step, the history of finished runs and the
 names of the scheduling algorithms a user can select.
 */
module DiskTypes {

  /** Number of requests one generation produces. */
  const RequestCount: nat := 30
  /** Requests per round: a round is only a label for ten consecutive indices. */
  const RoundSize: nat := 10
  /** Cylinders run from 0 to CylinderCount - 1. */
  const CylinderCount: nat := 40
  /** Surfaces ("cara") run from 0 to SurfaceCount - 1. */
  const SurfaceCount: nat := 10
  /** Sectors run from 0 to SectorCount - 1. */
  const SectorCount: nat := 16
  /** The cylinder the head starts at, and returns to on reset. */
  const HomeCylinder: int := 20

  datatype Option<T> = None | Some(value: T)

  /** The algorithm names the user can select. Only the name is recorded
      with a finished run: the serving step itself never consults it. */
  datatype Algorithm = FCFS | SSTF | SCAN | NSTEP | CSCAN | ESCHENBACH

  /** One I/O request; `surface` is the source's `cara`, `cylinder` its `cilindro`. */
  datatype Request = Request(id: int, surface: int, cylinder: int, sector: int)

  /** The record appended for every request served. */
  datatype StepResult = StepResult(requestId: int, tracks: nat, directionChanged: bool)

  /** The record appended when a run completes; the timestamp is opaque text. */
  datatype HistoryEntry = HistoryEntry(algorithm: Algorithm, totalTracks: int,
                                       totalDirectionChanges: int, timestamp: string)

  /** The three random draws made for one request. */
  datatype Draw = Draw(surface: int, cylinder: int, sector: int)

  predicate DrawInRange(d: Draw) {
    0 <= d.surface < SurfaceCount && 0 <= d.cylinder < CylinderCount && 0 <= d.sector < SectorCount
  }

  predicate RequestInRange(r: Request) {
    0 <= r.surface < SurfaceCount && 0 <= r.cylinder < CylinderCount && 0 <= r.sector < SectorCount
  }

  /** The requests are numbered 1, 2, 3, ... in sequence order. */
  ghost predicate Numbered(rs: seq<Request>) {
    forall i :: 0 <= i < |rs| ==> rs[i].id == i + 1
  }

  lemma NumberedExtends(rs: seq<Request>, r: Request)
    requires Numbered(rs) && r.id == |rs| + 1
    ensures Numbered(rs + [r])
  {
    forall i | 0 <= i < |rs| + 1 ensures (rs + [r])[i].id == i + 1 {
      if i < |rs| { assert (rs + [r])[i] == rs[i]; }
    }
  }

  /** The request list is either the empty initial one or a full generation:
      thirty requests numbered 1 to 30 in order, each field in its range. */
  ghost predicate WellFormed(rs: seq<Request>) {
    |rs| == 0 ||
    (|rs| == RequestCount &&
     forall i :: 0 <= i < |rs| ==> rs[i].id == i + 1 && RequestInRange(rs[i]))
  }

  function Abs(x: int): (r: nat)
    ensures r == x || r == -x
  {
    if x < 0 then -x else x
  }
}

/** The catalogs the planning scripts read (configuration.py loads them from the data
    directory; the extract scripts produce them): the worker needs per planet and
    worker type, and the buildings by ticker. Loading them is I/O and is not modelled;
    these are their shapes. */
module Catalogs {
  import opened Wrappers
  import opened Dicts

  /** One need of a worker type: the material, the number of workers the rate is for, and
      the amount consumed per day at that basis. */
  datatype Need = Need(id: string, basis: real, rate: real)

  /** A worker type's entry; `needs` is `None` when the entry has no 'needs' key. */
  datatype WorkerSpec = WorkerSpec(needs: Option<seq<Need>>)

  /** `Workers`: planet name -> worker type -> entry, each in its file order. */
  type WorkerCatalog = Dict<string, Dict<string, WorkerSpec>>

  /** One `{type, count}` pair of a building's workforce. */
  datatype WorkerSlot = WorkerSlot(kind: string, count: int)

  /** One entry of `Buildings`. */
  datatype BuildingSpec = BuildingSpec(
    ticker: string, kind: string, name: string, area: real, expertise: string,
    workers: seq<WorkerSlot>, materials: map<string, real>)

  /** The catalog is well formed as a nest of dicts. */
  predicate WfCatalog(c: WorkerCatalog)
  {
    Wf(c) && forall p | p in c.m :: Wf(c.m[p])
  }
}

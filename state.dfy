/** The watermark store: the one persisted value of the pipeline. */
module State {
  import opened Wrappers
  import opened Dates

  /** Holds `last_loaded_date`, absent until a run completes for every company.
      `writes` counts the calls to `UpdateLastLoadedDate`, so that a run's
      contract can say how many watermark writes it made. */
  class WatermarkStore {
    var lastLoadedDate: Option<Date>
    ghost var writes: nat

    /** A store holding whatever was persisted before (None on a first-ever run). */
    constructor (persisted: Option<Date>)
      ensures lastLoadedDate == persisted && writes == 0
    {
      lastLoadedDate := persisted;
      writes := 0;
    }

    /** `update_last_loaded_date(d)`: overwrites the watermark unconditionally. */
    method UpdateLastLoadedDate(d: Date)
      modifies this
      ensures lastLoadedDate == Some(d)
      ensures writes == old(writes) + 1
    {
      lastLoadedDate := Some(d);
      writes := writes + 1;
    }
  }
}

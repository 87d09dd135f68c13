/** The update queue (`queue.Queue`) shared by the monitor's loops and the
    servers that drain it. */
module Channel {
  import opened Common
  import opened Records

  class UpdateQueue {
    var items: seq<Update>

    constructor ()
      ensures items == []
    {
      items := [];
    }

    /** `put`: the update joins the back. */
    method Put(u: Update)
      modifies this
      ensures items == old(items) + [u]
    {
      items := items + [u];
    }

    /** `empty()`. */
    function IsEmpty(): bool
      reads this
    {
      items == []
    }

    /** `get_nowait`: the front update, or `queue.Empty` when there is none. */
    method GetNowait() returns (r: Result<Update>)
      modifies this
      ensures old(items) == [] ==> r.Err? && items == []
      ensures old(items) != [] ==> r == Ok(old(items)[0]) && items == old(items)[1..]
    {
      if items == [] {
        return Err("queue.Empty");
      }
      r := Ok(items[0]);
      items := items[1..];
    }
  }
}

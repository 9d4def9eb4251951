/** The set-once global (`once_cell::sync::OnceCell`) that both firmware revisions use for configuration. */
module OnceCell {
  import opened Wrappers

  class OnceCell<T> {
    var contents: Option<T>

    /** `OnceCell::new()`: empty. */
    constructor ()
      ensures contents == None
    {
      contents := None;
    }

    /** `set`: stores `v` only if the cell is still empty, and says whether it did. */
    method Set(v: T) returns (ok: bool)
      modifies this
      ensures ok == old(contents).None?
      ensures contents == if ok then Some(v) else old(contents)
    {
      ok := contents.None?;
      if ok {
        contents := Some(v);
      }
    }
  }
}

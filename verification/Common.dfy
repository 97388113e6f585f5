/** What several modules share. */
module Common {

  datatype Option<+T> = None | Some(value: T)

  function Count(b: bool): nat { if b then 1 else 0 }
}

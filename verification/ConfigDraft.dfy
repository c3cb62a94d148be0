/** The committed value of a configuration and, while somebody edits it, an uncommitted copy. */
module ConfigDraft {
  import opened Wrappers

  class Draft<T> {
    var data: T
    var draft: Option<T>

    constructor (value: T)
      ensures data == value && draft.None?
    {
      data, draft := value, None;
    }

    function Latest(): T
      reads this
    {
      if draft.Some? then draft.value else data
    }

    /** `draft()`: opens a copy of the data unless one is open already. */
    method Open()
      modifies this
      ensures data == old(data) && draft == Some(old(Latest()))
    {
      if draft.None? {
        draft := Some(data);
      }
    }

    /** A write through the reference that `draft()` hands out. */
    method Edit(value: T)
      modifies this
      ensures data == old(data) && draft == Some(value)
    {
      Open();
      draft := Some(value);
    }

    method Apply() returns (replaced: Option<T>)
      modifies this
      ensures data == old(Latest()) && draft.None?
      ensures replaced == if old(draft).Some? then Some(old(data)) else None
    {
      replaced := if draft.Some? then Some(data) else None;
      data, draft := Latest(), None;
    }

    method Discard() returns (dropped: Option<T>)
      modifies this
      ensures data == old(data) && draft.None? && dropped == old(draft)
    {
      dropped := draft;
      draft := None;
    }
  }
}

/** The absent-or-present wrapper used for the optional query-cache slot and
    the optional edited-task draft. */
module Wrappers {

  datatype Option<+T> = None | Some(value: T)
}

/** The status-message store the creator tabs post to, and the translation
    lookup their texts go through. Neither is modelled as written; both are
    stood in for here: `statusStore.addMessage` as an append to a list of
    notices, the lookup as a rendering that keeps the key and its argument
    apart. */
module Notices {

  datatype Kind = Success | Error | Info

  /** One posted message: `addMessage({ message, type })`. */
  datatype Notice = Notice(message: string, kind: Kind)

  /** `t(key, { arg })`: the translated text for `key` with its one argument
      filled in. The translation table is not modelled; a key used without an
      argument stands for its own text. */
  function T(key: string, arg: string): (text: string)
    ensures |text| == |key| + |arg| + 2
    ensures text[..|key|] == key && text[|key| + 1..|text| - 1] == arg
  {
    key + "(" + arg + ")"
  }

  /** The messages posted so far, oldest first. */
  class StatusMessages {
    var messages: seq<Notice>

    constructor ()
      ensures messages == []
    {
      messages := [];
    }

    method AddMessage(n: Notice)
      modifies this
      ensures messages == old(messages) + [n]
    {
      messages := messages + [n];
    }
  }
}

/**
 * `NotificationCenter.default` as far as the app uses it: a log of the names
 * posted, in order. Delivery to observers is not modelled.
 */
module Notifications {

  /** The one notification name the app posts. */
  const ModelChanged: string := "ModelChanged"

  class NotificationCenter {
    var posted: seq<string>

    constructor ()
      ensures posted == []
    {
      posted := [];
    }

    method Post(name: string)
      modifies this
      ensures posted == old(posted) + [name]
    {
      posted := posted + [name];
    }
  }
}

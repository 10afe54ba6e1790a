/** The parts of the browser environment that the session layer changes. */
module Browser {
  import opened Storage

  /** One page's window: the address it shows and its durable store. */
  class Window {
    /** `window.location.href`; assigning it navigates. */
    var location: string
    /** `window.localStorage`. */
    var localStorage: Store

    constructor (location: string, localStorage: Store)
      ensures this.location == location && this.localStorage == localStorage
    {
      this.location := location;
      this.localStorage := localStorage;
    }
  }
}

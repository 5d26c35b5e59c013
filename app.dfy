/** The root component (App.tsx:34-109): which page is shown and the shared
    agent memory the feature components update. */
module AppShell {
  import opened AgentMemory

  /** `'workshop' | 'about'`. */
  datatype View = Workshop | About

  class App {
    var view: View
    var memory: Memory

    /** The initial component state (App.tsx:35-43). */
    constructor ()
      ensures view == Workshop && memory == Initial()
    {
      view := Workshop;
      memory := Initial();
    }

    /** `updateMemory(updates)`: the memory becomes `{ ...memory, ...updates }`. */
    method UpdateMemory(updates: Memory)
      modifies this
      ensures memory == Merge(old(memory), updates) && view == old(view)
    {
      memory := Merge(memory, updates);
    }

    /** A click on the header always returns to the workshop. */
    method ClickHeader()
      modifies this
      ensures view == Workshop && memory == old(memory)
    {
      view := Workshop;
    }

    /** The About button is rendered only on the workshop page, so a click on it
        can only happen there. */
    method ClickAbout()
      modifies this
      ensures view == (if old(view) == Workshop then About else old(view))
      ensures memory == old(memory)
    {
      if view == Workshop {
        view := About;
      }
    }

    /** The About page's back button returns to the workshop. */
    method AboutBack()
      modifies this
      ensures view == Workshop && memory == old(memory)
    {
      view := Workshop;
    }
  }
}

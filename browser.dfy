/**
 * The two pieces of browser state the pages touch: `localStorage`, a string-to-string
 * store, and the class list of `document.documentElement`.
 */
module BrowserState {
  import opened Wrappers

  const AuthKey := "isAuthenticated"
  const DarkModeKey := "darkMode"
  const DarkClass := "dark"

  /** A message shown with `toast.success` or `toast.error`. */
  datatype Toast = ToastSuccess(message: string) | ToastError(message: string)

  class Browser {
    var storage: map<string, string>
    var classList: set<string>

    constructor (storage: map<string, string>, classList: set<string>)
      ensures this.storage == storage && this.classList == classList
    {
      this.storage := storage;
      this.classList := classList;
    }

    /** `localStorage.getItem(key)`; `None` is `null`. */
    function GetItem(key: string): (r: Option<string>)
      reads this
      ensures r.Some? <==> key in storage
      ensures r.Some? ==> r.value == storage[key]
    {
      if key in storage then Some(storage[key]) else None
    }

    /** `localStorage.setItem(key, value)` */
    method SetItem(key: string, value: string)
      modifies this
      ensures storage == old(storage)[key := value]
      ensures classList == old(classList)
    {
      storage := storage[key := value];
    }

    /** `localStorage.removeItem(key)` */
    method RemoveItem(key: string)
      modifies this
      ensures storage == old(storage) - {key}
      ensures classList == old(classList)
    {
      storage := storage - {key};
    }

    /** `document.documentElement.classList.add(name)` */
    method AddClass(name: string)
      modifies this
      ensures classList == old(classList) + {name}
      ensures storage == old(storage)
    {
      classList := classList + {name};
    }

    /** `document.documentElement.classList.remove(name)` */
    method RemoveClass(name: string)
      modifies this
      ensures classList == old(classList) - {name}
      ensures storage == old(storage)
    {
      classList := classList - {name};
    }

    /** The landing page's check: the flag is stored as exactly "true". */
    predicate IsAuthenticated()
      reads this
    {
      GetItem(AuthKey) == Some("true")
    }
  }
}

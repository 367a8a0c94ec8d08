/** The settings page (src/pages/Settings.tsx): theme, notification switches, logout. */
module SettingsPage {
  import opened Wrappers
  import opened BrowserState

  const HomeRoute := "/"
  const LogoutOk := "Logout realizado com sucesso!"
  const SaveOk := "Configurações salvas com sucesso!"

  /** What the `darkMode` initialiser returns for a store and whether a window exists. */
  function InitialDarkMode(storage: map<string, string>, hasWindow: bool): bool
  {
    if hasWindow && DarkModeKey in storage then storage[DarkModeKey] == "true" else true
  }

  /** The stored form of a theme choice. */
  function DarkModeText(dark: bool): string
  {
    if dark then "true" else "false"
  }

  class Settings {
    var darkMode: bool
    var notifications: bool
    var emailNotifications: bool
    const browser: Browser

    /**
     * The initial state. A stored theme is read and nothing is written; with none stored,
     * dark mode is switched on, stored and applied; without a window it is just on.
     */
    constructor (browser: Browser, hasWindow: bool)
      modifies browser
      ensures this.browser == browser
      ensures darkMode == InitialDarkMode(old(browser.storage), hasWindow)
      ensures notifications && emailNotifications
      ensures hasWindow && DarkModeKey !in old(browser.storage) ==>
                && browser.storage == old(browser.storage)[DarkModeKey := "true"]
                && browser.classList == old(browser.classList) + {DarkClass}
      ensures !(hasWindow && DarkModeKey !in old(browser.storage)) ==>
                browser.storage == old(browser.storage) && browser.classList == old(browser.classList)
    {
      this.browser := browser;
      notifications := true;
      emailNotifications := true;
      var dark := true;
      if hasWindow {
        var saved := browser.GetItem(DarkModeKey);
        if saved.Some? {
          dark := saved.value == "true";
        } else {
          browser.AddClass(DarkClass);
          browser.SetItem(DarkModeKey, "true");
        }
      }
      darkMode := dark;
    }

    /** The theme state, the stored theme and the `dark` class all say the same thing. */
    predicate ThemeInSync()
      reads this, browser
    {
      && DarkModeKey in browser.storage
      && browser.storage[DarkModeKey] == DarkModeText(darkMode)
      && (DarkClass in browser.classList <==> darkMode)
    }

    /** The dark-mode switch: state, store and class list all follow `checked`. */
    method OnDarkModeChange(checked: bool)
      modifies this, browser
      ensures darkMode == checked
      ensures ThemeInSync()
      ensures browser.storage == old(browser.storage)[DarkModeKey := DarkModeText(checked)]
      ensures browser.classList == if checked then old(browser.classList) + {DarkClass}
                                   else old(browser.classList) - {DarkClass}
      ensures notifications == old(notifications) && emailNotifications == old(emailNotifications)
    {
      darkMode := checked;
      if checked {
        browser.AddClass(DarkClass);
        browser.SetItem(DarkModeKey, "true");
      } else {
        browser.RemoveClass(DarkClass);
        browser.SetItem(DarkModeKey, "false");
      }
    }

    /** `handleLogout`: only the authentication flag is removed; the theme stays stored. */
    method HandleLogout() returns (navigation: string, toast: Toast)
      modifies browser
      ensures browser.storage == old(browser.storage) - {AuthKey}
      ensures browser.classList == old(browser.classList)
      ensures !browser.IsAuthenticated()
      ensures forall k :: k != AuthKey && k in old(browser.storage) ==>
                k in browser.storage && browser.storage[k] == old(browser.storage)[k]
      ensures navigation == HomeRoute && toast == ToastSuccess(LogoutOk)
    {
      browser.RemoveItem(AuthKey);
      navigation := HomeRoute;
      toast := ToastSuccess(LogoutOk);
    }

    /** `handleSave`: a toast and nothing else; the profile inputs are not kept anywhere. */
    method HandleSave() returns (toast: Toast)
      ensures toast == ToastSuccess(SaveOk)
    {
      toast := ToastSuccess(SaveOk);
    }

    /** The push-notification switch: page state only. */
    method SetNotifications(checked: bool)
      modifies this
      ensures notifications == checked
      ensures darkMode == old(darkMode) && emailNotifications == old(emailNotifications)
    {
      notifications := checked;
    }

    /** The e-mail-notification switch: page state only. */
    method SetEmailNotifications(checked: bool)
      modifies this
      ensures emailNotifications == checked
      ensures darkMode == old(darkMode) && notifications == old(notifications)
    {
      emailNotifications := checked;
    }
  }

  /** Opening settings and logging out keeps the theme that was stored and signs out. */
  method OpenAndLogout(browser: Browser, hasWindow: bool)
    modifies browser
    ensures !browser.IsAuthenticated()
    ensures DarkModeKey in old(browser.storage) ==>
              DarkModeKey in browser.storage && browser.storage[DarkModeKey] == old(browser.storage)[DarkModeKey]
  {
    var page := new Settings(browser, hasWindow);
    var _, _ := page.HandleLogout();
  }
}

/**
 * The application state slice and its only reducer, `setLanguage`, which
 * overwrites the selected language in place.
 */
module SetLanguageReducer {
  import opened I18nTypes

  /** `UserPreferences`: the language the user selected. */
  class UserPreferences {
    var language: Language

    constructor (language: Language)
      ensures this.language == language
    {
      this.language := language;
    }
  }

  /** `AppSliceType`. */
  class AppState {
    const userPreferences: UserPreferences

    /** `AppSliceInitialState`: Spanish is selected at start. */
    constructor ()
      ensures fresh(userPreferences) && userPreferences.language == Es
    {
      userPreferences := new UserPreferences(Es);
    }

    /** The language `useTranslations` reads from the store. */
    function SelectedLanguage(): Language
      reads userPreferences
    {
      userPreferences.language
    }
  }

  /** `ActionWithPayload<T>`. */
  datatype ActionWithPayload<T> = ActionWithPayload(actionType: string, payload: T)

  /** `setLanguage(state, action)`: the payload becomes the selected language; nothing else changes. */
  method SetLanguage(state: AppState, action: ActionWithPayload<Language>)
    modifies state.userPreferences
    ensures state.SelectedLanguage() == action.payload
  {
    state.userPreferences.language := action.payload;
  }

  /** Dispatching twice keeps only the second language, whatever was selected before. */
  method LastWriteWins(state: AppState, first: Language, second: Language)
    modifies state.userPreferences
    ensures state.SelectedLanguage() == second
  {
    SetLanguage(state, ActionWithPayload("AppSlice/setLanguage", first));
    SetLanguage(state, ActionWithPayload("AppSlice/setLanguage", second));
  }
}

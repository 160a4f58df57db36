/**
 * The model names of the chat feature. The client (src/services/api.ts) and
 * the backend (backend/main.py) each write out the same two-name allow-list
 * and the same fallback; it is defined once here and used by both sides.
 */
module ModelNames {

  /** The models the programs accept, in the order the code lists them. */
  const SupportedModels: seq<string> := ["gemini-2.0-flash", "groq-llama"]

  /**
   * `supportedModels.includes(model) ? model : 'gemini-2.0-flash'` in the
   * client, `if model not in supported_models: model = 'gemini-2.0-flash'`
   * in the backend.
   */
  function SafeModel(model: string): (r: string)
    ensures r in SupportedModels
    ensures model in SupportedModels ==> r == model
    ensures model !in SupportedModels ==> r == "gemini-2.0-flash"
  {
    if model in SupportedModels then model else "gemini-2.0-flash"
  }

  /**
   * A name the client has already passed through the allow-list is never
   * rewritten by the backend's check of the same list.
   */
  lemma ClientModelsAreKept(model: string)
    ensures SafeModel(SafeModel(model)) == SafeModel(model)
  {
  }
}

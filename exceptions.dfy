/** The errors a client constructor can raise. */
module Exceptions {

  /** `SupabaseException` carries the message of a failed validation check;
      `IndexError` is what indexing a too-short list of URL parts raises. */
  datatype Error = SupabaseException(message: string) | IndexError

  const UrlRequired := "supabase_url is required"
  const KeyRequired := "supabase_key is required"
  const InvalidUrl := "Invalid URL"
  const InvalidKey := "Invalid API key"
}

/** The WordPress and PHP library functions the plugin calls but whose definitions are not part
    of this model. They are passed around as uninterpreted function values. */
module WordPress {

  datatype Helpers = Helpers(
    sanitizeText: string -> string,        // sanitize_text_field
    sanitizeEmail: string -> string,       // sanitize_email
    isEmail: string -> bool,               // is_email (a falsy result counts as false)
    escHtml: string -> string,             // esc_html
    escUrlRaw: string -> string,           // esc_url_raw
    looseEquals: (string, string) -> bool  // PHP 8 `==` between two strings
  )

  /** sanitize_text_field applied twice changes nothing. */
  ghost predicate SanitizerStable(wp: Helpers) {
    forall s :: wp.sanitizeText(wp.sanitizeText(s)) == wp.sanitizeText(s)
  }
}

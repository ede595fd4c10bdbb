/**
 * Translation of backend error messages into the user-facing Portuguese
 * texts shown by `login` and `register`. Each handler copies `e.message` into
 * a local `msg` and then runs a chain of `includes` checks, each of which may
 * overwrite `msg`; a later check therefore runs against the already
 * translated text.
 */
module Messages {
  import opened Strings

  const InvalidEmailCode: string := "(auth/invalid-email)"
  const InvalidCredentialCode: string := "(auth/invalid-credential)"
  const EmailInUseCode: string := "(auth/email-already-in-use)"

  const InvalidEmailText: string := "E-mail inválido"
  const WrongCredentialsText: string := "E-mail ou Senha errada"
  const EmailInUseText: string := "Esse e-mail já está em uso"

  /** One link of the chain: `if (msg.includes(code)) msg = text`. */
  function Translate(msg: string, code: string, text: string): string
  {
    if Includes(msg, code) then text else msg
  }

  /** The chain in `login`'s catch block, in source order. */
  function LoginMessage(raw: string): (msg: string)
    ensures msg == InvalidEmailText || msg == WrongCredentialsText || msg == raw
    ensures Includes(raw, InvalidEmailCode) ==> msg == InvalidEmailText
  {
    NeedleLongerThanText(InvalidEmailText, InvalidCredentialCode);
    Translate(Translate(raw, InvalidEmailCode, InvalidEmailText), InvalidCredentialCode, WrongCredentialsText)
  }

  /** The chain in `register`'s catch block, in source order. */
  function RegisterMessage(raw: string): (msg: string)
    ensures msg == InvalidEmailText || msg == EmailInUseText || msg == raw
    ensures Includes(raw, InvalidEmailCode) ==> msg == InvalidEmailText
  {
    NeedleLongerThanText(InvalidEmailText, EmailInUseCode);
    Translate(Translate(raw, InvalidEmailCode, InvalidEmailText), EmailInUseCode, EmailInUseText)
  }

  /**
   * Although the second check sees the rewritten message, the first code that
   * matches decides the outcome, and a message matching neither code is kept.
   */
  lemma LoginFirstMatchWins(raw: string)
    ensures LoginMessage(raw) ==
      if Includes(raw, InvalidEmailCode) then InvalidEmailText
      else if Includes(raw, InvalidCredentialCode) then WrongCredentialsText
      else raw
  {
    NeedleLongerThanText(InvalidEmailText, InvalidCredentialCode);
  }

  lemma RegisterFirstMatchWins(raw: string)
    ensures RegisterMessage(raw) ==
      if Includes(raw, InvalidEmailCode) then InvalidEmailText
      else if Includes(raw, EmailInUseCode) then EmailInUseText
      else raw
  {
    NeedleLongerThanText(InvalidEmailText, EmailInUseCode);
  }

  /** `'E-mail inválido'` is shorter than every code, so it contains none. */
  lemma InvalidEmailTextCarriesNoCode()
    ensures !Includes(InvalidEmailText, InvalidEmailCode)
    ensures !Includes(InvalidEmailText, InvalidCredentialCode)
    ensures !Includes(InvalidEmailText, EmailInUseCode)
  {
    NeedleLongerThanText(InvalidEmailText, InvalidEmailCode);
    NeedleLongerThanText(InvalidEmailText, InvalidCredentialCode);
    NeedleLongerThanText(InvalidEmailText, EmailInUseCode);
  }

  /** The other two texts contain no `(`, with which every code starts. */
  lemma WrongCredentialsTextCarriesNoCode()
    ensures !Includes(WrongCredentialsText, InvalidEmailCode)
    ensures !Includes(WrongCredentialsText, InvalidCredentialCode)
  {
    assert InvalidEmailCode[0] == InvalidCredentialCode[0] == '(';
    assert '(' !in WrongCredentialsText;
    FirstCharMissing(WrongCredentialsText, InvalidEmailCode);
    FirstCharMissing(WrongCredentialsText, InvalidCredentialCode);
  }

  lemma EmailInUseTextCarriesNoCode()
    ensures !Includes(EmailInUseText, InvalidEmailCode)
    ensures !Includes(EmailInUseText, EmailInUseCode)
  {
    assert InvalidEmailCode[0] == EmailInUseCode[0] == '(';
    assert '(' !in EmailInUseText;
    FirstCharMissing(EmailInUseText, InvalidEmailCode);
    FirstCharMissing(EmailInUseText, EmailInUseCode);
  }

  /** The user-facing texts carry no error code, so translating twice changes nothing. */
  lemma LoginMessageIdempotent(raw: string)
    ensures LoginMessage(LoginMessage(raw)) == LoginMessage(raw)
  {
    LoginFirstMatchWins(raw);
    LoginFirstMatchWins(LoginMessage(raw));
    InvalidEmailTextCarriesNoCode();
    WrongCredentialsTextCarriesNoCode();
  }

  lemma RegisterMessageIdempotent(raw: string)
    ensures RegisterMessage(RegisterMessage(raw)) == RegisterMessage(raw)
  {
    RegisterFirstMatchWins(raw);
    RegisterFirstMatchWins(RegisterMessage(raw));
    InvalidEmailTextCarriesNoCode();
    EmailInUseTextCarriesNoCode();
  }

  /** A backend message that embeds a code, as `Firebase: Error (auth/...).` does, is translated. */
  lemma EmbeddedCodeTranslated(before: string, after: string)
    ensures LoginMessage(before + InvalidEmailCode + after) == InvalidEmailText
    ensures LoginMessage(before + InvalidCredentialCode + after) == WrongCredentialsText
            || Includes(before + InvalidCredentialCode + after, InvalidEmailCode)
    ensures RegisterMessage(before + InvalidEmailCode + after) == InvalidEmailText
    ensures RegisterMessage(before + EmailInUseCode + after) == EmailInUseText
            || Includes(before + EmailInUseCode + after, InvalidEmailCode)
  {
    IncludesEmbedded(before, InvalidEmailCode, after);
    IncludesEmbedded(before, InvalidCredentialCode, after);
    IncludesEmbedded(before, EmailInUseCode, after);
    LoginFirstMatchWins(before + InvalidEmailCode + after);
    LoginFirstMatchWins(before + InvalidCredentialCode + after);
    RegisterFirstMatchWins(before + EmailInUseCode + after);
  }
}

/** Sign-In with Ethereum: issuing a message and consuming it, at most one sign-in per message. */
module Siwe {
  import opened Options
  import opened MessageCache
  import Text
  import Uuid

  const AUTH_MESSAGE_KEY_PREFIX := "siwe:message:"

  /** What the SIWE library reads from a message. */
  datatype Parsed = Parsed(uri: string, chainId: int, nonce: string, address: string)

  datatype AuthConfig = AuthConfig(uri: string, chainId: int, messageTtl: int)

  /** The SIWE library and the clock: parsing, and the domain, time and signature checks of Verify. */
  datatype Library = Library(parse: string -> Option<Parsed>, accepts: (string, string) -> bool)

  datatype AuthError =
    | InvalidWalletAddress
    | InvalidMessage
    | InvalidSignature
    | VerificationFailed
    | InternalError

  predicate AllHex(s: string) {
    forall i :: 0 <= i < |s| ==> Uuid.HexValue(s[i]).Some?
  }

  /** isValidEthereumSignature: 0x and 65 bytes in hex. */
  predicate ValidSignature(signature: string) {
    |signature| == 2 + 65 * 2 && Text.HasPrefix(signature, "0x") && AllHex(signature[2..])
  }

  /** common.IsHexAddress: 20 bytes in hex, with or without 0x. */
  predicate IsHexAddress(s: string) {
    var digits := if |s| >= 2 && s[0] == '0' && (s[1] == 'x' || s[1] == 'X') then s[2..] else s;
    |digits| == 40 && AllHex(digits)
  }

  /** Everything Verify checks before it touches the store. */
  function Precheck(lib: Library, config: AuthConfig, rawMessage: string, signature: string): Result<Parsed, AuthError> {
    if Text.TrimSpace(rawMessage) == "" then Err(InvalidMessage)
    else if !ValidSignature(Text.TrimSpace(signature)) then Err(InvalidSignature)
    else
      var parsed := lib.parse(rawMessage);
      if parsed.None? then Err(InvalidMessage)
      else if parsed.value.uri != config.uri || parsed.value.chainId != config.chainId then Err(VerificationFailed)
      else if !lib.accepts(rawMessage, Text.TrimSpace(signature)) then Err(VerificationFailed)
      else Ok(parsed.value)
  }

  function NonceKey(keyPrefix: string, nonce: string): Result<string, CacheError> {
    BuildKey(keyPrefix, AUTH_MESSAGE_KEY_PREFIX + nonce)
  }

  /** What a valid signature looks like: 132 characters, the first two 0x, the others hexadecimal digits. */
  lemma SignatureShape(s: string)
    ensures ValidSignature(s)
            <==> && |s| == 132 && s[0] == '0' && s[1] == 'x'
                 && forall i :: 2 <= i < 132 ==> '0' <= s[i] <= '9' || 'a' <= s[i] <= 'f' || 'A' <= s[i] <= 'F'
  {
    if |s| == 132 {
      assert s[2..] == s[2..132];
      assert forall i :: 2 <= i < 132 ==> s[i] == s[2..][i - 2];
    }
  }

  /** What a wallet address looks like: 40 hexadecimal digits, or 42 characters starting with 0x or 0X. */
  lemma AddressShape(s: string)
    ensures IsHexAddress(s)
            <==> var start := if |s| == 42 && s[0] == '0' && (s[1] == 'x' || s[1] == 'X') then 2 else 0;
                 && |s| - start == 40
                 && forall i :: start <= i < |s| ==> '0' <= s[i] <= '9' || 'a' <= s[i] <= 'f' || 'A' <= s[i] <= 'F'
  {
    var prefixed := |s| >= 2 && s[0] == '0' && (s[1] == 'x' || s[1] == 'X');
    if prefixed {
      assert forall i :: 2 <= i < |s| ==> s[i] == s[2..][i - 2];
      assert Uuid.HexValue(s[1]).None?;
    }
  }

  /** The key of a nonce is never blank. */
  lemma NonceKeyUsable(keyPrefix: string, nonce: string)
    ensures NonceKey(keyPrefix, nonce).Ok?
  {
    hide Text.TrimSpace;
    var key := AUTH_MESSAGE_KEY_PREFIX + nonce;
    assert key[0] == AUTH_MESSAGE_KEY_PREFIX[0] == 's';
    Text.TrimKeepsStart(key);
  }

  /** The entry stored for a nonce, under "siwe:message:" and the nonce, is this message. */
  predicate Holds(entries: map<string, string>, keyPrefix: string, nonce: string, message: string) {
    var key := BuildKey(keyPrefix, "siwe:message:" + nonce);
    key.Ok? && key.value in entries && entries[key.value] == message
  }

  /** How the profile lookup and the token generator answer after the message has been consumed. */
  datatype Aftermath = TokenIssued | LookupFails | TokenFails

  /** Verify, as a function of the store it found. */
  function VerifyEffect(
    lib: Library, config: AuthConfig, keyPrefix: string, entries: map<string, string>,
    rawMessage: string, signature: string, aftermath: Aftermath)
    : (map<string, string>, Result<string, AuthError>)
  {
    var checked := Precheck(lib, config, rawMessage, signature);
    if checked.Err? then (entries, Err(checked.error))
    else
      var key := NonceKey(keyPrefix, checked.value.nonce);
      if key.Err? then (entries, Err(InternalError))
      else if key.value !in entries then (entries, Err(VerificationFailed))
      else if entries[key.value] != rawMessage then (entries - {key.value}, Err(VerificationFailed))
      else if aftermath != TokenIssued then (entries - {key.value}, Err(InternalError))
      else (entries - {key.value}, Ok(checked.value.address))
  }

  class AuthService {
    const store: CacheClient<string>
    const config: AuthConfig

    constructor (store: CacheClient<string>, config: AuthConfig)
      ensures this.store == store && this.config == config
    {
      this.store := store;
      this.config := config;
    }

    /** nonce and render stand for the random generator, the clock and the message template. */
    method CreateMessage(walletAddress: string, nonce: string, render: (string, string) -> Option<string>)
      returns (r: Result<string, AuthError>)
      modifies store
      ensures r.Ok?
              <==> && IsHexAddress(Text.TrimSpace(walletAddress)) && config.messageTtl > 0
                   && render(Text.TrimSpace(walletAddress), nonce).Some?
      ensures !IsHexAddress(Text.TrimSpace(walletAddress)) ==> r == Err(InvalidWalletAddress)
      ensures r.Err? ==> store.entries == old(store.entries)
      ensures r.Ok? ==>
                && render(Text.TrimSpace(walletAddress), nonce) == Some(r.value) && config.messageTtl > 0
                && var key := NonceKey(store.keyPrefix, nonce);
                && key.Ok? && store.entries == old(store.entries)[key.value := r.value]
    {
      hide Text.TrimSpace, IsHexAddress;
      NonceKeyUsable(store.keyPrefix, nonce);
      var address := Text.TrimSpace(walletAddress);
      if !IsHexAddress(address) {
        return Err(InvalidWalletAddress);
      }
      var message := render(address, nonce);
      if message.None? {
        return Err(InternalError);
      }
      var stored := store.Set(AUTH_MESSAGE_KEY_PREFIX + nonce, message.value, config.messageTtl);
      if stored.Err? {
        return Err(InternalError);
      }
      return Ok(message.value);
    }

    method Verify(lib: Library, rawMessage: string, signature: string, aftermath: Aftermath)
      returns (r: Result<string, AuthError>)
      modifies store
      ensures (store.entries, r)
              == VerifyEffect(lib, config, store.keyPrefix, old(store.entries), rawMessage, signature, aftermath)
      ensures r.Ok?
              <==> && Text.TrimSpace(rawMessage) != "" && ValidSignature(Text.TrimSpace(signature))
                   && lib.parse(rawMessage).Some?
                   && lib.parse(rawMessage).value.uri == config.uri && lib.parse(rawMessage).value.chainId == config.chainId
                   && lib.accepts(rawMessage, Text.TrimSpace(signature))
                   && Holds(old(store.entries), store.keyPrefix, lib.parse(rawMessage).value.nonce, rawMessage)
                   && aftermath == TokenIssued
      ensures r.Ok? ==> r.value == lib.parse(rawMessage).value.address
      ensures r == Err(InvalidSignature)
              <==> Text.TrimSpace(rawMessage) != "" && !ValidSignature(Text.TrimSpace(signature))
      ensures r == Err(InvalidMessage)
              <==> || Text.TrimSpace(rawMessage) == ""
                   || (ValidSignature(Text.TrimSpace(signature)) && lib.parse(rawMessage).None?)
    {
      hide Text.TrimSpace, Text.HasPrefix, ValidSignature;
      if Text.TrimSpace(rawMessage) == "" {
        return Err(InvalidMessage);
      }
      var trimmed := Text.TrimSpace(signature);
      if !ValidSignature(trimmed) {
        return Err(InvalidSignature);
      }
      var parsed := lib.parse(rawMessage);
      if parsed.None? {
        return Err(InvalidMessage);
      }
      if parsed.value.uri != config.uri || parsed.value.chainId != config.chainId {
        return Err(VerificationFailed);
      }
      if !lib.accepts(rawMessage, trimmed) {
        return Err(VerificationFailed);
      }
      var stored := store.GetDelete(AUTH_MESSAGE_KEY_PREFIX + parsed.value.nonce);
      if stored.Err? {
        return Err(if stored.error == Miss then VerificationFailed else InternalError);
      }
      if stored.value != rawMessage {
        return Err(VerificationFailed);
      }
      if aftermath != TokenIssued {
        return Err(InternalError);
      }
      return Ok(parsed.value.address);
    }
  }

  /** A call rejected before the consume step leaves the store as it was; a successful one presents
      exactly the stored message and removes it, so the same call made again fails. */
  lemma VerifyOnce(
    lib: Library, config: AuthConfig, keyPrefix: string, entries: map<string, string>, rawMessage: string,
    signature: string, aftermath: Aftermath)
    ensures
      var (after, r) := VerifyEffect(lib, config, keyPrefix, entries, rawMessage, signature, aftermath);
      && (Precheck(lib, config, rawMessage, signature).Err? ==> r.Err? && after == entries)
      && (r.Ok? ==> rawMessage in entries.Values)
      && (r.Ok? ==> forall again :: VerifyEffect(lib, config, keyPrefix, after, rawMessage, signature, again).1.Err?)
  {
    hide Text.TrimSpace, Text.HasPrefix, Precheck, NonceKey;
  }
}

/** Creating a conversation: the controller builds a fingerprint from the
    request, refuses one that is too short, and otherwise asks the model to
    mint an id and record a new row in the Conversation table. */
module Conversations {
  import opened Php
  import opened Token

  /** Fewest characters a fingerprint must have before an id is minted. */
  const MinSignatureLength: nat := 7

  /** A row of the Conversation table. */
  datatype ConversationRow = ConversationRow(
    id: string,
    managerId: Option<int>,
    username: Option<string>,
    lastEdit: string)

  /** The array handed to `start_conversation`; each key may be absent. */
  datatype ConversationFig = ConversationFig(
    username: Option<string>,
    signature: Option<string>,
    managerId: Option<int>)

  /** What `start_conversation` hashes: `$fig['username'] . $fig['signature']`. */
  function HashInput(fig: ConversationFig): string
  {
    Str(fig.username) + Str(fig.signature)
  }

  /** The row `start_conversation` records for an id, at time `now`. */
  function NewRow(fig: ConversationFig, id: string, now: string): ConversationRow
  {
    ConversationRow(id, fig.managerId, fig.username, now)
  }

  /** The controller's fingerprint: username, client address, user agent. */
  function Fingerprint(username: Option<string>, remoteAddr: string, userAgent: string): (fp: string)
    ensures |fp| == |Str(username)| + |remoteAddr| + |userAgent|
    ensures fp[..|Str(username)|] == Str(username)
  {
    Str(username) + remoteAddr + userAgent
  }

  /** The array the controller passes to `start_conversation`. */
  function ControllerFig(username: Option<string>, remoteAddr: string, userAgent: string): ConversationFig
  {
    ConversationFig(username, Some(Fingerprint(username, remoteAddr, userAgent)), None)
  }

  /** Since the controller's signature already begins with the username and
      the model prepends the username again, a minted id hashes the
      username twice. */
  lemma UsernameHashedTwice(username: Option<string>, remoteAddr: string, userAgent: string)
    ensures HashInput(ControllerFig(username, remoteAddr, userAgent))
            == Str(username) + Str(username) + remoteAddr + userAgent
  {
  }

  /** An id minted through the controller verifies against the doubled
      username followed by address and agent; it verifies against the plain
      fingerprint only when SHA-1 gives both strings the same digest. */
  lemma ControllerIdVerification(sha1: Sha1, salt: string, username: Option<string>, remoteAddr: string, userAgent: string)
    requires |salt| == SaltLength
    ensures var id := GenerateSignature(sha1, salt, HashInput(ControllerFig(username, remoteAddr, userAgent)));
            var fp := Fingerprint(username, remoteAddr, userAgent);
            IsSignatureMatch(sha1, Str(username) + fp, id)
            && (IsSignatureMatch(sha1, fp, id) <==> sha1(salt + fp) == sha1(salt + Str(username) + fp))
  {
    var fp := Fingerprint(username, remoteAddr, userAgent);
    var input := HashInput(ControllerFig(username, remoteAddr, userAgent));
    assert input == Str(username) + fp;
    RoundTrip(sha1, salt, input);
    MatchMeansEqualDigests(sha1, salt, input, fp);
    assert salt + Str(username) + fp == salt + input;
  }

  /** The model test's call: username "username" and a signature without
      it; the id verifies against their concatenation. */
  lemma ModelTestIdVerifies(sha1: Sha1, salt: string)
    requires |salt| == SaltLength
    ensures var fig := ConversationFig(Some("username"), Some("REMOTE_ADDRHTTP_USER_AGENT"), None);
            IsSignatureMatch(sha1, "usernameREMOTE_ADDRHTTP_USER_AGENT", GenerateSignature(sha1, salt, HashInput(fig)))
  {
    var fig := ConversationFig(Some("username"), Some("REMOTE_ADDRHTTP_USER_AGENT"), None);
    assert HashInput(fig) == "usernameREMOTE_ADDRHTTP_USER_AGENT";
    RoundTrip(sha1, salt, HashInput(fig));
  }

  /** The controller tests' requests: the default one and one without a
      username are long enough; a null username with a 2-character address
      and a 3-character agent (7 / 2 = 3.5 padded down) is too short. */
  lemma ControllerTestFingerprints()
    ensures |Fingerprint(Some("mock_username"), "mock_remote_addr", "mock_http_user_agent")| >= MinSignatureLength
    ensures |Fingerprint(None, "mock_remote_addr", "mock_http_user_agent")| >= MinSignatureLength
    ensures |Fingerprint(None, "xx", "yyy")| < MinSignatureLength
  {
  }

  /** `New_Conversation_Model`: `conversations` is the Conversation table
      its database handle writes to. */
  class NewConversationModel {
    var conversations: seq<ConversationRow>

    constructor (rows: seq<ConversationRow>)
      ensures conversations == rows
    {
      conversations := rows;
    }

    /** `start_conversation($fig)`: mints an id from the fig's username and
        signature, inserts one row for it stamped `now`, and returns the id.
        Nothing is deduplicated: every call adds a row. */
    method StartConversation(sha1: Sha1, salt: string, now: string, fig: ConversationFig) returns (id: string)
      requires |salt| == SaltLength
      modifies this
      ensures id == GenerateSignature(sha1, salt, HashInput(fig))
      ensures |id| == IdColumnWidth && id[..SaltLength] == salt
      ensures conversations == old(conversations) + [NewRow(fig, id, now)]
    {
      id := GenerateSignature(sha1, salt, HashInput(fig));
      conversations := conversations + [ConversationRow(id, fig.managerId, fig.username, now)];
    }
  }

  /** The controller's answer: `json_encode(array("id" => $id))`. */
  datatype Response = IdObject(id: string)

  datatype Error = BadRequest(message: string)

  /** `New_Conversation_Controller`, with the request's posted username
      (null when absent) and its REMOTE_ADDR and HTTP_USER_AGENT. */
  class NewConversationController {
    const username: Option<string>
    const remoteAddr: string
    const userAgent: string
    const model: NewConversationModel

    constructor (username: Option<string>, remoteAddr: string, userAgent: string, model: NewConversationModel)
      ensures this.username == username && this.remoteAddr == remoteAddr
      ensures this.userAgent == userAgent && this.model == model
    {
      this.username := username;
      this.remoteAddr := remoteAddr;
      this.userAgent := userAgent;
      this.model := model;
    }

    /** `post()`: with a fingerprint of at least 7 characters, starts a
        conversation and answers with its id; otherwise throws
        `Bad_Request_Exception("signature is too short")` and leaves the
        table as it was. */
    method Post(sha1: Sha1, salt: string, now: string) returns (r: Result<Response, Error>)
      requires |salt| == SaltLength
      modifies model
      ensures var fp := Fingerprint(username, remoteAddr, userAgent);
              var fig := ControllerFig(username, remoteAddr, userAgent);
              var id := GenerateSignature(sha1, salt, HashInput(fig));
              if |fp| >= MinSignatureLength then
                r == Ok(IdObject(id))
                && model.conversations == old(model.conversations) + [NewRow(fig, id, now)]
              else
                r == Err(BadRequest("signature is too short"))
                && model.conversations == old(model.conversations)
    {
      var signature := Fingerprint(username, remoteAddr, userAgent);
      if |signature| >= MinSignatureLength {
        var id := model.StartConversation(sha1, salt, now, ConversationFig(username, Some(signature), None));
        r := Ok(IdObject(id));
      } else {
        r := Err(BadRequest("signature is too short"));
      }
    }
  }
}

/** The per-browser-session state of the app and the actions that change
    it: the password gate, the Master Architect button and the Save to
    Vault button. */
module Session {
  import opened Pipeline
  import opened Vault

  /** The shared access password. */
  const AppPassword := "password123"

  /** `authenticated` after the password entries `attempts`, one after the
      other, starting from `authenticated`. */
  function AfterAttempts(authenticated: bool, attempts: seq<string>): (r: bool)
    ensures authenticated ==> r
    ensures attempts != [] && attempts[|attempts| - 1] == AppPassword ==> r
    decreases |attempts|
  {
    if attempts == [] then authenticated
    else AfterAttempts(authenticated || attempts[0] == AppPassword, attempts[1..])
  }

  /** The gate opens exactly when some entry was the password, and once open
      it stays open. */
  lemma {:induction false} GateOpensOnPassword(authenticated: bool, attempts: seq<string>)
    ensures AfterAttempts(authenticated, attempts) <==> authenticated || AppPassword in attempts
    decreases |attempts|
  {
    if attempts != [] {
      GateOpensOnPassword(authenticated || attempts[0] == AppPassword, attempts[1..]);
      assert attempts == [attempts[0]] + attempts[1..];
    }
  }

  /** There is no attempt limit: after any number of wrong entries the gate
      is still shut, and the password then opens it. */
  lemma NoAttemptLimit(wrong: seq<string>)
    requires AppPassword !in wrong
    ensures !AfterAttempts(false, wrong)
    ensures AfterAttempts(false, wrong + [AppPassword])
  {
    GateOpensOnPassword(false, wrong);
    GateOpensOnPassword(false, wrong + [AppPassword]);
  }

  class Session {
    var authenticated: bool
    var masterPrompt: string
    var criticFeedback: string
    var voiceText: string

    /** A fresh session: locked, with empty prompt, note and transcript. */
    constructor ()
      ensures !authenticated
      ensures masterPrompt == "" && criticFeedback == "" && voiceText == ""
    {
      authenticated := false;
      masterPrompt := "";
      criticFeedback := "";
      voiceText := "";
    }

    /** The password field's change handler: the password unlocks the
        session; anything else shows the "Wrong password" error
        (`rejected`) and leaves the flag as it was. */
    method CheckPassword(input: string) returns (rejected: bool)
      modifies this`authenticated
      ensures authenticated == AfterAttempts(old(authenticated), [input])
      ensures input == AppPassword ==> authenticated
      ensures input != AppPassword ==> authenticated == old(authenticated)
      ensures rejected <==> input != AppPassword
    {
      rejected := false;
      if input == AppPassword {
        authenticated := true;
      } else {
        rejected := true;
      }
      assert [input][1..] == [];
    }

    /** The "Architect Master Prompt" button: checks the key, sends the
        draft request, then the critic and diet requests when enabled,
        writing the session fields as each reply arrives. A failed request
        ends the press there. */
    method ArchitectMasterPrompt(s: Settings, provider: ChatRequest -> Reply)
      returns (outcome: Outcome, sent: seq<ChatRequest>)
      modifies this`masterPrompt, this`criticFeedback
      ensures Run(outcome, Fields(masterPrompt, criticFeedback), sent)
        == Architect(Fields(old(masterPrompt), old(criticFeedback)), s, provider)
    {
      sent := [];
      if s.apiKey == "" {
        return MissingKey, sent;
      }
      var request := DraftRequest(s);
      sent := sent + [request];
      var reply := provider(request);
      if reply.Failed? {
        return ProviderError(reply.error), sent;
      }
      var draft := reply.content;

      if s.runCritic {
        request := CriticRequest(draft);
        sent := sent + [request];
        reply := provider(request);
        if reply.Failed? {
          return ProviderError(reply.error), sent;
        }
        masterPrompt := reply.content;
        criticFeedback := CriticNote;
      } else {
        masterPrompt := draft;
      }

      if s.runDiet {
        request := DietRequest(masterPrompt);
        sent := sent + [request];
        reply := provider(request);
        if reply.Failed? {
          return ProviderError(reply.error), sent;
        }
        masterPrompt := reply.content;
      }
      outcome := Completed;
    }

    /** The "Save to Vault" button, shown only once there is a master
        prompt: saves it tagged with the domain label, with the default
        score. */
    method SaveMasterPrompt(file: VaultFile, domainLabel: string, timestamp: string)
      requires masterPrompt != ""
      modifies file
      ensures file.store == AfterSave(old(file.store), Entry(timestamp, masterPrompt, domainLabel, DefaultScore))
    {
      var _ := file.Save(masterPrompt, domainLabel, timestamp);
    }
  }
}

/** The extension's built-in configuration (extension/rules.js): the AI
    domains where pastes are intercepted and the one-rule pack. */
module RulePack {
  import opened Wrappers
  import opened Logic

  const AiDomains: seq<string> := ["chat.openai.com", "chatgpt.com", "claude.ai", "gemini.google.com"]

  const R1: Rule := Rule("R1", "Block PII in AI prompts",
                         "Prevents pasting emails, phone numbers, or IBANs into AI chat prompts",
                         Some(["EMAIL", "PHONE", "IBAN"]), "BLOCK")

  const Rules: seq<Rule> := [R1]

  /** The four AI domains are accepted and nothing else is; in particular the
      empty hostname is not. */
  lemma AiDomainsExact(hostname: string)
    ensures IsAiDomain(hostname, Some(AiDomains)) <==>
              (hostname == "chat.openai.com" || hostname == "chatgpt.com"
               || hostname == "claude.ai" || hostname == "gemini.google.com")
  {
  }

  /** `w` ends with a dot followed by `d`. */
  predicate EndsWithDotted(w: string, d: string) {
    |w| >= |d| + 1 && w[|w| - |d| - 1..] == "." + d
  }

  /** No listed domain ends with a dot followed by a listed domain. */
  lemma NoDottedSuffixes()
    ensures forall w, d :: w in AiDomains && d in AiDomains ==> !EndsWithDotted(w, d)
  {
    forall w, d | w in AiDomains && d in AiDomains ensures !EndsWithDotted(w, d) {
      if |w| >= |d| + 1 {
        var k := |w| - |d| - 1;
        assert w[k] != '.' || w[k + 1..] != d;
        assert w[k..][0] == w[k] && w[k..][1..] == w[k + 1..];
      }
    }
  }

  /** A proper subdomain of an AI domain is never an AI domain: the list holds
      no domain together with one of its subdomains. */
  lemma NoSubdomainOfAiDomain(prefix: string, d: string)
    requires d in AiDomains
    ensures !IsAiDomain(prefix + "." + d, Some(AiDomains))
  {
    var h := prefix + "." + d;
    assert h[|h| - |d| - 1..] == "." + d;
    assert EndsWithDotted(h, d);
    NoDottedSuffixes();
  }

  /** The pack is one rule, R1, triggered by EMAIL, PHONE and IBAN, with
      action BLOCK. */
  lemma PackShape()
    ensures |Rules| == 1 && Rules[0].id == "R1"
    ensures Rules[0].triggers == Some(["EMAIL", "PHONE", "IBAN"]) && Rules[0].action == "BLOCK"
  {
  }

  /** With this pack, R1 is selected exactly when some hit is EMAIL, PHONE or
      IBAN, and nothing is selected otherwise. */
  lemma PackSelectsR1(hits: seq<string>)
    ensures FirstTriggered(hits, Rules) == (if exists h :: h in hits && h in ["EMAIL", "PHONE", "IBAN"] then Some(R1) else None)
  {
    assert Rules[1..] == [];
  }

  /** Every non-empty result of the detector selects R1. */
  lemma DetectionSelectsR1(hits: seq<string>)
    requires hits != []
    requires forall h :: h in hits ==> h in ["EMAIL", "PHONE", "IBAN"]
    ensures FirstTriggered(hits, Rules) == Some(R1)
  {
    PackSelectsR1(hits);
    assert hits[0] in hits;
  }

  /** An unknown type selects nothing. */
  lemma UnknownSelectsNothing()
    ensures FirstTriggered(["UNKNOWN"], Rules) == None
  {
    PackSelectsR1(["UNKNOWN"]);
  }
}

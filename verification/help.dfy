/** The help centre: the FAQ list filtered by topic and search text, and
    the one-at-a-time expanded answer. */
module Help {
  import opened Wrappers
  import opened Text
  import Sequences

  datatype Faq = Faq(category: string, question: string, answer: string)

  const Faqs: seq<Faq> := [
    Faq("booking",
      "How do I book a charging station?",
      "You can book a charging station by browsing our map, selecting an available station, choosing your preferred time slot, and confirming your booking with payment."),
    Faq("booking",
      "Can I cancel my booking?",
      "Yes, you can cancel your booking up to 30 minutes before the scheduled time. Cancellations made within 30 minutes may incur a small fee."),
    Faq("hosting",
      "What equipment do I need to become a host?",
      "You need a compatible EV charging station (3kW or higher), dedicated parking space, stable electricity connection, and smartphone for managing bookings."),
    Faq("hosting",
      "How much can I earn as a host?",
      "Earnings vary based on location, charger type, and usage. On average, hosts earn ₹15,000-₹45,000 per month. Use our earnings calculator for personalized estimates."),
    Faq("charging",
      "What types of charging connectors are supported?",
      "We support Type-2, CCS, and CHAdeMO connectors. Each station listing clearly mentions the available connector types."),
    Faq("charging",
      "How long does it take to charge my EV?",
      "Charging time depends on your battery capacity, current charge level, and charger power. Typically, it takes 1-4 hours for a full charge on most EV bikes."),
    Faq("payments",
      "What payment methods are accepted?",
      "We accept UPI, credit/debit cards, net banking, and digital wallets like Paytm and Google Pay. You can also use your Eco Pulse wallet for faster payments."),
    Faq("payments",
      "When will I be charged for my booking?",
      "Payment is processed when you start your charging session. You'll receive an instant receipt and detailed bill after completion."),
    Faq("safety",
      "Is it safe to charge at private locations?",
      "Yes, all hosts undergo KYC verification and station inspection. We also provide insurance coverage and 24/7 emergency support for added safety."),
    Faq("safety",
      "What should I do in case of an emergency?",
      "Immediately stop charging, ensure safety, and call our emergency helpline at 1800-CHARGE-911. Our support team is available 24/7.")
  ]

  /** "all" accepts every topic; otherwise the topic must be equal. */
  predicate MatchesCategory(faq: Faq, category: string) {
    category == "all" || faq.category == category
  }

  /** Case-insensitive substring match on the question or the answer. */
  predicate MatchesSearch(faq: Faq, query: string) {
    MatchesEither(faq.question, faq.answer, query)
  }

  function ShownTest(category: string, query: string): Faq -> bool {
    (faq: Faq) => MatchesCategory(faq, category) && MatchesSearch(faq, query)
  }

  /** `filteredFaqs`; the "N questions found" label is its length. */
  function FilteredFaqs(faqs: seq<Faq>, category: string, query: string): (r: seq<Faq>)
    ensures forall i :: 0 <= i < |r| ==> r[i] in faqs && MatchesCategory(r[i], category) && MatchesSearch(r[i], query)
    ensures forall i :: 0 <= i < |faqs| && MatchesCategory(faqs[i], category) && MatchesSearch(faqs[i], query)
              ==> faqs[i] in r
  {
    Sequences.Filter(faqs, ShownTest(category, query))
  }

  /** The result keeps the list order, and filtering it again changes nothing. */
  lemma FilteredFaqsOrderedAndStable(faqs: seq<Faq>, category: string, query: string)
    ensures Sequences.IsSubsequence(FilteredFaqs(faqs, category, query), faqs)
    ensures FilteredFaqs(FilteredFaqs(faqs, category, query), category, query) == FilteredFaqs(faqs, category, query)
  {
    Sequences.FilterIsSubsequence(faqs, ShownTest(category, query));
    Sequences.FilterIdempotent(faqs, ShownTest(category, query));
  }

  /** A specific topic shows a part of what "All Topics" shows, in the same order. */
  lemma CategoryNarrowsAll(faqs: seq<Faq>, category: string, query: string)
    ensures Sequences.IsSubsequence(FilteredFaqs(faqs, category, query), FilteredFaqs(faqs, "all", query))
  {
    Sequences.FilterMonotone(faqs, ShownTest(category, query), ShownTest("all", query));
  }

  /** "All Topics" with no search lists every question, in order. */
  lemma InitialShowsAllOf(faqs: seq<Faq>)
    ensures FilteredFaqs(faqs, "all", "") == faqs
  {
    forall i | 0 <= i < |faqs|
      ensures ShownTest("all", "")(faqs[i])
    {
      EmptyQueryMatches(faqs[i].question, faqs[i].answer);
    }
    Sequences.FilterKeepsAll(faqs, ShownTest("all", ""));
  }

  /** So the page opens with all 10 questions. */
  lemma InitialShowsAll()
    ensures |Faqs| == 10
    ensures FilteredFaqs(Faqs, "all", "") == Faqs
  {
    InitialShowsAllOf(Faqs);
  }

  /** Clicking question `index` of the shown list: collapses it when it is the
      expanded one, otherwise makes it the expanded one. */
  function ClickFaq(expanded: Option<nat>, index: nat): (r: Option<nat>)
    ensures r == Some(index) <==> expanded != Some(index)
    ensures forall j :: j != index ==> r != Some(j)
  {
    if expanded == Some(index) then None else Some(index)
  }

  /** Two clicks on the same question leave it open exactly when it was open before. */
  lemma ClickTwiceRestoresOwnState(expanded: Option<nat>, index: nat)
    ensures (ClickFaq(ClickFaq(expanded, index), index) == Some(index)) == (expanded == Some(index))
  {
  }
}

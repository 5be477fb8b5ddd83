/**
 * The fixed example set that seedDatabase inserts: five principles and thirteen
 * tactics, each tactic naming the position of its principle among the five.
 */
module SeedData {
  import opened Wrappers
  import opened Schema

  /** The example principles, in insertion order; their `order` values are 0 to 4. */
  const SeedPrinciples: seq<InsertPrinciple> := [
    InsertPrinciple(PrincipleTitle0, PrincipleDescription0, Some("Sales"), Some("orange"), Some(0)),
    InsertPrinciple(PrincipleTitle1, PrincipleDescription1, Some("Communication"), Some("blue"), Some(1)),
    InsertPrinciple(PrincipleTitle2, PrincipleDescription2, Some("Marketing"), Some("green"), Some(2)),
    InsertPrinciple(PrincipleTitle3, PrincipleDescription3, Some("Psychology"), Some("purple"), Some(3)),
    InsertPrinciple(PrincipleTitle4, PrincipleDescription4, Some("Psychology"), Some("teal"), Some(4))
  ]

  const PrincipleTitle0: string := "People buy when perceived value exceeds cost"
  const PrincipleDescription0: string :=
    "To sell more, you need to increase perceived value or reduce the cost they pay (in time, money, & effort). This is the fundamental law of every transaction."
  const PrincipleTitle1: string := "Humans are naturally drawn to stories"
  const PrincipleDescription1: string :=
    "Stories bypass the logical brain and speak directly to emotions. People remember stories 22x more than facts alone. Use narrative structure to persuade."
  const PrincipleTitle2: string := "People love to look at things"
  const PrincipleDescription2: string :=
    "The eyes love to figure stuff out. More of the brain is dedicated to processing vision than any other function. Visual content always outperforms text-only."
  const PrincipleTitle3: string := "People naturally focus on faces"
  const PrincipleDescription3: string :=
    "Humans are hardwired to notice and process faces before anything else. This evolutionary trait can be leveraged in thumbnails, ads, and content."
  const PrincipleTitle4: string := "People feel compelled to return what they receive"
  const PrincipleDescription4: string :=
    "The reciprocity principle: when someone gives us something, we feel an obligation to give back. Free value creates a psychological debt."

  /** Position of a seeded principle among the five just created. */
  type SeedIndex = k: nat | k < 5

  /** An example tactic, attached to the `owner`-th created principle. */
  datatype SeedTactic = SeedTactic(owner: SeedIndex, title: string, description: string, order: int)

  const SeedTactics: seq<SeedTactic> := [
    SeedTactic(0, TacticTitle0, TacticDescription0, 0),
    SeedTactic(0, TacticTitle1, TacticDescription1, 1),
    SeedTactic(0, TacticTitle2, TacticDescription2, 2),
    SeedTactic(1, TacticTitle3, TacticDescription3, 0),
    SeedTactic(1, TacticTitle4, TacticDescription4, 1),
    SeedTactic(1, TacticTitle5, TacticDescription5, 2),
    SeedTactic(2, TacticTitle6, TacticDescription6, 0),
    SeedTactic(2, TacticTitle7, TacticDescription7, 1),
    SeedTactic(2, TacticTitle8, TacticDescription8, 2),
    SeedTactic(3, TacticTitle9, TacticDescription9, 0),
    SeedTactic(3, TacticTitle10, TacticDescription10, 1),
    SeedTactic(4, TacticTitle11, TacticDescription11, 0),
    SeedTactic(4, TacticTitle12, TacticDescription12, 1)
  ]

  const TacticTitle0: string := "Create an Instagram 'Story Highlights' reel of testimonials/client wins"
  const TacticDescription0: string := "Social proof increases perceived value by showing real results others have achieved."
  const TacticTitle1: string := "List all benefits and their 'estimated value' in your sales pitch"
  const TacticDescription1: string := "Stack the value so the total far exceeds the price point."
  const TacticTitle2: string := "Drop the price by $500 for a promotion"
  const TacticDescription2: string := "Reducing cost is one side of the value equation. Use sparingly."
  const TacticTitle3: string := "Tell your origin story of struggle to success"
  const TacticDescription3: string := "Personal transformation stories create emotional connection and relatability."
  const TacticTitle4: string := "Show 'before and after' as a teaser for thumbnails"
  const TacticDescription4: string := "Transformation arcs are the most compelling story structure."
  const TacticTitle5: string := "Use a story as a way to teach a lesson"
  const TacticDescription5: string := "Parables and case studies make abstract concepts concrete and memorable."
  const TacticTitle6: string := "Have moving visuals every 5 seconds in VSL videos"
  const TacticDescription6: string := "Constant visual stimulation keeps attention and prevents drop-off."
  const TacticTitle7: string := "Use pictures on Miro instead of just text documents"
  const TacticDescription7: string := "Visual presentations are processed 60,000x faster than text."
  const TacticTitle8: string := "Send a loom video for outreach instead of just text"
  const TacticDescription8: string := "Video outreach stands out and leverages the visual processing preference."
  const TacticTitle9: string := "Use faces in your YouTube thumbnails"
  const TacticDescription9: string := "YouTube currently requires thumbnails. Faces draw instant attention in a feed."
  const TacticTitle10: string := "Include team headshots on your landing page"
  const TacticDescription10: string := "Faces build trust and humanize your brand."
  const TacticTitle11: string := "Send loom videos positioned as free value in cold emails"
  const TacticDescription11: string := "Providing free, personalized value triggers reciprocity and starts conversations."
  const TacticTitle12: string := "Send personalized AND automated voice notes using AI"
  const TacticDescription12: string := "Personal touches create stronger reciprocity than generic outreach."
}

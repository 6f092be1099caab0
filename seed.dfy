/** The demonstration clients written to an empty store on first load. */
module Seed {
  import opened Wrappers
  import opened Types

  const MockClients: seq<Client> := [
    Client("1", "Sarah Johnson", "EcoStyle Boutique", "sarah@ecostyle.com", "+1 (555) 123-4567",
      Active, 15000, "Very interested in organic SEO. Prefers communication via email.",
      [Project("p1", "E-commerce Redesign", Website, InProgress, 65, "2024-01-10",
         None, None, Some("https://docs.google.com/folder/1"), None,
         [Task("t1", "Product page layout", true, None),
          Task("t2", "Payment gateway integration", false, None)],
         None, None)],
      "2023-10-15", None),
    Client("2", "Mark Thompson", "Apex Logistics", "mark@apex.logistics", "+1 (555) 987-6543",
      Lead, 0, "Needs a new brand identity and landing page.",
      [], "2024-03-01", None),
    Client("3", "Elena Rodriguez", "Urban Greens", "elena@urbangreens.io", "+1 (555) 444-5555",
      Potential, 8500, "Retainer client for social media marketing.",
      [Project("p2", "Q2 Social Campaign", Marketing, Planning, 10, "2024-03-15",
         None, None, None, Some("https://docs.google.com/spreadsheets/1"),
         [Task("t3", "Creative Assets", false, None)],
         None, None)],
      "2023-12-05", None)
  ]
}

/** The nine service categories seeded into an empty service table at start-up. */
module Catalogue {
  import opened Wrappers
  import opened Records

  /** (name, description) of each seeded service, in insertion order. */
  const Entries: seq<(string, string)> := [
    ("Plumbing", "Water leaks, pipe repairs, installations"),
    ("Electrical", "Wiring, electrical repairs, installations"),
    ("Carpentry", "Furniture repairs, installations, woodwork"),
    ("Cleaning", "Home cleaning, deep cleaning services"),
    ("Gardening", "Garden maintenance, landscaping"),
    ("Automotive", "Car repair, maintenance, towing"),
    ("Ambulance", "Emergency medical transport"),
    ("Police", "Emergency law enforcement assistance"),
    ("Fire Fighter", "Fire emergency and rescue services")
  ]

  /** The row the seeding loop inserts for entry `i` into a table of `i` rows. */
  function SeedRow(i: nat): (s: Service)
    requires i < |Entries|
    ensures s.id == i + 1 && s.name == Entries[i].0 && s.description == Some(Entries[i].1)
  {
    Service(i + 1, Entries[i].0, Some(Entries[i].1))
  }

  /** The first `n` seeded rows. */
  function SeedRows(n: nat): (r: seq<Service>)
    requires n <= |Entries|
    ensures |r| == n
    ensures forall i :: 0 <= i < n ==> r[i] == SeedRow(i)
  {
    if n == 0 then [] else SeedRows(n - 1) + [SeedRow(n - 1)]
  }

  /** The service table after start-up seeding: filled only when it was empty. */
  function Seeded(services: seq<Service>): (r: seq<Service>)
    ensures services == [] ==> |r| == |Entries| && forall i :: 0 <= i < |r| ==> r[i] == SeedRow(i)
    ensures services != [] ==> r == services
  {
    if services == [] then SeedRows(|Entries|) else services
  }

  /** Starting up twice seeds no duplicates. */
  lemma SeedingIdempotent(services: seq<Service>)
    ensures Seeded(Seeded(services)) == Seeded(services)
  {
  }

  /** A fresh table receives nine services with distinct names and ids 1..9, in the listed order. */
  lemma FreshCatalogue()
    ensures var r := Seeded([]);
            |r| == 9 &&
            (forall i :: 0 <= i < 9 ==> r[i].id == i + 1 && r[i].name == Entries[i].0) &&
            (forall i, j :: 0 <= i < j < 9 ==> r[i].name != r[j].name)
  {
  }
}

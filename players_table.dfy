/** The INSERT statement's column list for the `players` table, in order,
    without the two timestamps the statement sets with NOW(). */
module PlayersTable {

  const Columns: seq<string> := [
    "first_name", "last_name", "jersey_number", "position", "nationality",
    "date_of_birth", "height_cm", "weight_kg", "team_name", "league",
    "goals", "assists", "yellow_cards", "red_cards"]

  /** Columns from this index on are the four match counters. */
  const FirstCounter: nat := 10
}

/** What the three pages share: the `'high' | 'medium' | 'low'` wellbeing
    level and the toast notification they raise. */
module Ui {

  datatype Level = High | Medium | Low

  /** The level's string literal as the pages write it. */
  function LevelName(l: Level): string
  {
    match l
    case High => "high"
    case Medium => "medium"
    case Low => "low"
  }

  /** Position of a level in the order low < medium < high. */
  function Rank(l: Level): nat
  {
    match l
    case Low => 0
    case Medium => 1
    case High => 2
  }

  /** A toast: its title, its description and whether it uses the
      `destructive` variant. */
  datatype Toast = Toast(title: string, description: string, destructive: bool)

  datatype Option<T> = None | Some(value: T)
}

/** The bundled place and product lists (src/data/mockData.ts), as fixtures. Descriptions
    are left empty; images are named by their asset. */
module MockData {
  import opened Base
  import opened Lists
  import opened Places

  const Suggestions: seq<Place> := [
    Place("1", "Teatro Amazonas", "Manaus, AM", 4.8, "Teatro_Amazonas.jpg", "", Cultural,
          Some("seller-1"), Some("Manaus Cultural")),
    Place("2", "Praia da Ponta Negra", "Manaus, AM", 4.5, "Ponta_Negra.jpg", "", Nature,
          None, None),
    Place("3", "Encontro das Águas", "Manaus, AM", 4.9, "Encontro_Aguas.jpg", "", Nature,
          Some("seller-2"), Some("Amazon Tours"))
  ]

  const PopularPlaces: seq<Place> := [
    Place("4", "Artesanato Indígena", "Centro, Manaus", 4.7, "Artesanato_Indigena.jpeg", "", Craft,
          Some("seller-3"), Some("Bijuteria Indígena")),
    Place("5", "Passeio de Barco", "Rio Negro", 4.6, "Passeio_Barco.jpg", "", Adventure,
          Some("seller-2"), Some("Amazon Tours"))
  ]

  const Products: seq<Product> := [
    Product("p1", "Passeio de Barco - Encontro das Águas", 150.0, "Passeio_Barco.jpg", "",
            "Amazon Tours", true),
    Product("p2", "Colar Indígena Artesanal", 89.0, "Artesanato_Indigena.jpeg", "",
            "Bijuteria Indígena", true),
    Product("p3", "Tour Teatro Amazonas", 45.0, "Teatro_Amazonas.jpg", "",
            "Manaus Cultural", true)
  ]

  /** Ids are unique across the two place lists, so de-duplication keeps both lists whole. */
  lemma BundledIdsUnique()
    ensures UniqueKeys(Suggestions + PopularPlaces, PlaceId)
    ensures AllPlaces(Suggestions, PopularPlaces) == Suggestions + PopularPlaces
  {
    var all := Suggestions + PopularPlaces;
    assert |all| == 5;
    assert all[0].id == "1" && all[1].id == "2" && all[2].id == "3";
    assert all[3].id == "4" && all[4].id == "5";
  }
}
